/** Resource paths as scripts write them: `:resource/path`, or a plain path in
    the script's own resource. */
module ResourcePaths {
  import opened Text

  const BASE := "./mods/deathmatch/resources/"
  const NPOS_32 := 0xFFFF_FFFF

  // ------------------------------------------------------------- validation

  predicate IsWantedCharacter(c: char) {
    32 as char <= c <= 126 as char
  }

  predicate ValidAt(s: string, i: nat)
    requires i < |s|
  {
    var c := s[i];
    var next := if i < |s| - 1 then s[i + 1] else '\0';
    IsWantedCharacter(c) && c != ':' && !(c == '.' && next == '.') && !(c == '\\' && next == '\\')
  }

  /** A path of visible characters without ':', ".." or a double backslash. */
  ghost predicate ValidPath(s: string) {
    forall i :: 0 <= i < |s| ==> ValidAt(s, i)
  }

  /** On the characters alone: printable ASCII from the space on, without ':', and
      without two dots or two backslashes in a row. */
  ghost predicate Acceptable(s: string) {
    && (forall i :: 0 <= i < |s| ==> ' ' <= s[i] <= '~' && s[i] != ':')
    && (forall i :: 0 <= i < |s| - 1 ==> !(s[i] == s[i + 1] == '.') && !(s[i] == s[i + 1] == '\\'))
  }

  lemma ValidPathMeans(s: string)
    ensures ValidPath(s) <==> Acceptable(s)
  {
    if ValidPath(s) {
      forall i | 0 <= i < |s| ensures ' ' <= s[i] <= '~' && s[i] != ':' {
        assert ValidAt(s, i);
      }
      forall i | 0 <= i < |s| - 1 ensures !(s[i] == s[i + 1] == '.') && !(s[i] == s[i + 1] == '\\') {
        assert ValidAt(s, i);
      }
    }
  }

  /** szDir is the text of a C string. */
  method IsValidFilePath(szDir: string) returns (ok: bool)
    ensures ok <==> ValidPath(szDir)
    ensures ok <==> Acceptable(szDir)
  {
    ValidPathMeans(szDir);
    var uiLen := |szDir|;
    var i := 0;
    while i < uiLen
      invariant 0 <= i <= uiLen
      invariant forall j :: 0 <= j < i ==> ValidAt(szDir, j)
    {
      var c := szDir[i];
      var c_d := if i < uiLen - 1 then szDir[i + 1] else '\0';
      if !IsWantedCharacter(c) || c == ':' || (c == '.' && c_d == '.') || (c == '\\' && c_d == '\\') {
        assert !ValidAt(szDir, i);
        return false;
      }
      i := i + 1;
    }
    return true;
  }

  // ------------------------------------------------------------ replacement

  /** Every character of s that is in a, replaced by b. */
  function ReplaceAll(s: string, a: string, b: string): string {
    if s == [] then [] else (if s[0] in a then b else [s[0]]) + ReplaceAll(s[1..], a, b)
  }

  function FindAny(s: string, a: string, from: nat): (k: nat)
    requires from <= |s|
    ensures from <= k <= |s|
    ensures k < |s| ==> s[k] in a
    ensures forall j :: from <= j < k ==> s[j] !in a
    decreases |s| - from
  {
    if from == |s| || s[from] in a then from else FindAny(s, a, from + 1)
  }

  predicate Disjoint(a: string, b: string) {
    forall c :: c in a ==> c !in b
  }

  function CountOf(s: string, a: string): nat {
    if s == [] then 0 else (if s[0] in a then 1 else 0) + CountOf(s[1..], a)
  }

  lemma {:induction false} ReplaceConcat(s: string, t: string, a: string, b: string)
    ensures ReplaceAll(s + t, a, b) == ReplaceAll(s, a, b) + ReplaceAll(t, a, b)
    ensures CountOf(s + t, a) == CountOf(s, a) + CountOf(t, a)
  {
    if s == [] {
      assert s + t == t;
    } else {
      assert (s + t)[1..] == s[1..] + t;
      ReplaceConcat(s[1..], t, a, b);
    }
  }

  /** With ReplaceConcat: the characters are replaced one by one. */
  lemma ReplaceOne(c: char, a: string, b: string)
    ensures ReplaceAll([c], a, b) == if c in a then b else [c]
  {
    assert [c][1..] == [];
  }

  lemma {:induction false} ReplaceNone(s: string, a: string, b: string)
    requires forall i :: 0 <= i < |s| ==> s[i] !in a
    ensures ReplaceAll(s, a, b) == s && CountOf(s, a) == 0
  {
    if s != [] {
      ReplaceNone(s[1..], a, b);
    }
  }

  /** One round: the character at idx is replaced. */
  lemma ReplaceStep(s: string, a: string, b: string, idx: nat)
    requires idx < |s| && s[idx] in a && Disjoint(a, b)
    ensures var s1 := s[..idx] + b + s[idx + 1..];
            && s1[..idx] + ReplaceAll(s1[idx..], a, b) == s[..idx] + ReplaceAll(s[idx..], a, b)
            && CountOf(s1[idx..], a) == CountOf(s[idx..], a) - 1
  {
    var s1 := s[..idx] + b + s[idx + 1..];
    var later := s[idx + 1..];
    assert s1[idx..] == b + later && s1[..idx] == s[..idx];
    assert s[idx..][1..] == later;
    ReplaceConcat(b, later, a, b);
    ReplaceNone(b, a, b);
  }

  /** The loop ends because each round removes a character of a for good. */
  method ReplaceOccurrencesInString(s0: string, a: string, b: string) returns (s: string)
    requires Disjoint(a, b) || forall i :: 0 <= i < |s0| ==> s0[i] !in a
    ensures s == ReplaceAll(s0, a, b)
  {
    s := s0;
    if !Disjoint(a, b) {
      ReplaceNone(s0, a, b);
    }
    var idx: nat := FindAny(s, a, 0);
    ReplaceUpTo(s, a, b, 0, idx);
    while idx < |s|
      invariant idx <= |s| && (idx < |s| ==> s[idx] in a && Disjoint(a, b))
      invariant s[..idx] + ReplaceAll(s[idx..], a, b) == ReplaceAll(s0, a, b)
      decreases CountOf(s[idx..], a)
    {
      ReplaceStep(s, a, b, idx);
      s := s[..idx] + b + s[idx + 1..];
      ghost var at := idx;
      idx := FindAny(s, a, idx);
      ReplaceUpTo(s, a, b, at, idx);
    }
    assert s[..idx] == s && s[idx..] == [];
  }

  lemma ReplaceUpTo(s: string, a: string, b: string, idx: nat, k: nat)
    requires idx <= k <= |s| && forall j :: idx <= j < k ==> s[j] !in a
    ensures s[..k] + ReplaceAll(s[k..], a, b) == s[..idx] + ReplaceAll(s[idx..], a, b)
    ensures CountOf(s[k..], a) == CountOf(s[idx..], a)
  {
    assert s[idx..] == s[idx..k] + s[k..];
    ReplaceConcat(s[idx..k], s[k..], a, b);
    ReplaceNone(s[idx..k], a, b);
    assert s[..idx] + s[idx..k] == s[..k];
  }

  /** The state (s, idx) of the loop after n rounds, or None if it has ended. */
  datatype LoopState = Ended | Running(s: string, idx: nat)

  function Rounds(s0: string, a: string, b: string, n: nat): (r: LoopState)
    ensures r.Running? ==> r.idx < |r.s| && r.s[r.idx] in a
  {
    if n == 0 then
      var k := FindAny(s0, a, 0);
      if k < |s0| then Running(s0, k) else Ended
    else
      match Rounds(s0, a, b, n - 1)
      case Ended => Ended
      case Running(s, idx) =>
        var s1 := s[..idx] + b + s[idx + 1..];
        var k := FindAny(s1, a, idx);
        if k < |s1| then Running(s1, k) else Ended
  }

  /** When the replacement itself contains something to replace, and there is
      anything to replace at all, the loop never ends: this and the method above
      say exactly when it does. */
  lemma {:induction false} ReplacingByItselfNeverEnds(s0: string, a: string, b: string, n: nat)
    requires !Disjoint(a, b) && exists i :: 0 <= i < |s0| && s0[i] in a
    ensures Rounds(s0, a, b, n).Running?
  {
    hide FindAny, Disjoint;
    if n > 0 {
      ReplacingByItselfNeverEnds(s0, a, b, n - 1);
      var Running(s, idx) := Rounds(s0, a, b, n - 1);
      MoreToReplace(s, a, b, idx);
    }
  }

  lemma MoreToReplace(s: string, a: string, b: string, idx: nat)
    requires !Disjoint(a, b) && idx < |s|
    ensures var s1 := s[..idx] + b + s[idx + 1..]; FindAny(s1, a, idx) < |s1|
  {
    var s1 := s[..idx] + b + s[idx + 1..];
    var j :| 0 <= j < |b| && b[j] in a;
    assert s1[idx + j] == b[j];
  }

  // ----------------------------------------------------------------- parsing

  datatype Outcome = Rejected | Accepted(path: string, metaPath: string)

  function Slashed(s: string): string {
    ReplaceAll(s, "\\", "/")
  }

  /** What an input means. `resources` are the names that are registered. */
  ghost function Parse(strInput: string, rName: string, resources: set<string>): Outcome {
    ParseStraight(Slashed(strInput), rName, resources)
  }

  /** The same once the slashes are straight. */
  ghost function ParseStraight(s: string, rName: string, resources: set<string>): Outcome {
    if s != [] && s[0] == ':' then
      var k := Find(s, '/');
      if k == |s| then Rejected
      else
        var name, metaPath := s[1..k], s[k + 1..];
        if CString(name) in resources && metaPath != [] && metaPath[0] != '\0' && ValidPath(CString(metaPath))
        then Accepted(BASE + name + "/" + metaPath, metaPath)
        else Rejected
    else if ValidPath(CString(s)) then Accepted(BASE + rName + "/" + s, s)
    else Rejected
  }

  /** std::string::substr with its count clipped to what there is. */
  function Substr(s: string, pos: nat, n: nat): string
    requires pos <= |s|
  {
    if pos + n <= |s| then s[pos..pos + n] else s[pos..]
  }

  /** operator[] on a string, which answers NUL one past the end. */
  function At(s: string, i: nat): char
    requires i <= |s|
  {
    if i < |s| then s[i] else '\0'
  }

  /** find_first_of, kept in a 32-bit unsigned variable. */
  function FirstSlash(s: string): nat {
    var k := Find(s, '/');
    if k < |s| then k else NPOS_32
  }

  /** The parser. Without a slash iEnd is the largest 32-bit value, and iEnd + 1
      is 0: the whole input is validated as a path, and refused for its ':'. */
  method ParseResourcePathInput(strInput0: string, rName: string, resources: set<string>,
                                strPath0: string, strMetaPath0: string)
    returns (ok: bool, strPath: string, strMetaPath: string)
    requires |strInput0| < NPOS_32
    ensures match Parse(strInput0, rName, resources)
            case Accepted(path, metaPath) => ok && strPath == path && strMetaPath == metaPath
            case Rejected => !ok && strPath == strPath0
  {
    hide ReplaceAll, ParseStraight;
    var strInput := ReplaceOccurrencesInString(strInput0, "\\", "/");
    SameLength(strInput0);
    ok, strPath, strMetaPath := ParseStraightInput(strInput, rName, resources, strPath0, strMetaPath0);
  }

  /** The positions it computes in an input that begins with ':'. */
  lemma ColonPositions(s: string)
    requires s != [] && s[0] == ':' && |s| < NPOS_32
    ensures var iEnd, k := FirstSlash(s), Find(s, '/');
            var next := (iEnd + 1) % 0x1_0000_0000;
            && iEnd != 0
            && (if k == |s| then next == 0 && Substr(s, next, |s|) == s
                else next == k + 1 && Substr(s, 1, iEnd - 1) == s[1..k] && Substr(s, next, |s|) == s[k + 1..])
  {
    hide Find;
  }

  /** The parser after the replacement. */
  method ParseStraightInput(strInput: string, rName: string, resources: set<string>,
                            strPath0: string, strMetaPath0: string)
    returns (ok: bool, strPath: string, strMetaPath: string)
    requires |strInput| < NPOS_32
    ensures match ParseStraight(strInput, rName, resources)
            case Accepted(path, metaPath) => ok && strPath == path && strMetaPath == metaPath
            case Rejected => !ok && strPath == strPath0
  {
    hide Find, FirstSlash, Substr, CString, ValidPath, Acceptable, BASE;
    strPath, strMetaPath := strPath0, strMetaPath0;
    if At(strInput, 0) == ':' {
      ColonPositions(strInput);
      var iEnd := FirstSlash(strInput);
      if iEnd != 0 {
        var strResourceName := Substr(strInput, 1, iEnd - 1);
        var next := (iEnd + 1) % 0x1_0000_0000;
        if CString(strResourceName) in resources && At(strInput, next) != '\0' {
          strMetaPath := Substr(strInput, next, |strInput|);
          var valid := IsValidFilePath(CString(strMetaPath));
          if valid {
            ColonIsInvalid(strMetaPath);
            strPath := BASE + strResourceName + "/" + strMetaPath;
            return true, strPath, strMetaPath;
          }
        }
      }
    } else {
      var valid := IsValidFilePath(CString(strInput));
      if valid {
        strPath := BASE + rName + "/" + strInput;
        strMetaPath := strInput;
        return true, strPath, strMetaPath;
      }
    }
    return false, strPath, strMetaPath;
  }

  lemma {:induction false} SameLength(s: string)
    ensures |Slashed(s)| == |s| && '\\' !in Slashed(s)
  {
    if s != [] {
      SameLength(s[1..]);
    }
  }

  lemma ColonIsInvalid(s: string)
    ensures s != [] && s[0] == ':' ==> !ValidPath(CString(s))
  {
    if s != [] && s[0] == ':' {
      assert CString(s)[0] == ':';
      assert !ValidAt(CString(s), 0);
    }
  }

  // ------------------------------------------------------------- containment

  /** Where a path leads from the current directory, name by name; Outside if it
      climbs above it. */
  datatype Place = Outside | Inside(dirs: seq<string>)

  function Resolve(names: seq<string>, dirs: seq<string>): Place
    decreases |names|
  {
    if names == [] then Inside(dirs)
    else if names[0] == "" || names[0] == "." then Resolve(names[1..], dirs)
    else if names[0] == ".." then
      if dirs == [] then Outside else Resolve(names[1..], dirs[..|dirs| - 1])
    else Resolve(names[1..], dirs + [names[0]])
  }

  /** The names that lead somewhere. */
  function Parts(names: seq<string>): seq<string> {
    if names == [] then []
    else (if names[0] == "" || names[0] == "." then [] else [names[0]]) + Parts(names[1..])
  }

  lemma {:induction false} ResolveForward(names: seq<string>, dirs: seq<string>)
    requires ".." !in names
    ensures Resolve(names, dirs) == Inside(dirs + Parts(names))
    decreases |names|
  {
    if names == [] {
      assert dirs + [] == dirs;
    } else if names[0] == "" || names[0] == "." {
      ResolveForward(names[1..], dirs);
    } else {
      ResolveForward(names[1..], dirs + [names[0]]);
      AppendFirst(dirs, names[0], Parts(names[1..]));
    }
  }

  lemma AppendFirst(dirs: seq<string>, name: string, later: seq<string>)
    ensures dirs + [name] + later == dirs + ([name] + later)
  {
  }

  lemma {:induction false} ValidHasNoParent(s: string)
    requires ValidPath(s)
    ensures ".." !in Split(s, '/')
    decreases |s|
  {
    var k := Find(s, '/');
    if k < |s| {
      var later := s[k + 1..];
      forall i | 0 <= i < |later| ensures ValidAt(later, i) {
        assert ValidAt(s, k + 1 + i);
      }
      ValidHasNoParent(later);
    }
    if |s| >= 2 && k >= 2 {
      assert ValidAt(s, 0);
      assert s[..k][1] == s[1];
    }
  }

  const RESOURCES: seq<string> := ["mods", "deathmatch", "resources"]

  lemma SplitBase(rest: string)
    ensures Split(BASE + rest, '/') == [".", "mods", "deathmatch", "resources"] + Split(rest, '/')
  {
    hide Split, Find;
    var r3 := "resources" + ['/'] + rest;
    var r2 := "deathmatch" + ['/'] + r3;
    var r1 := "mods" + ['/'] + r2;
    assert BASE + rest == "." + ['/'] + r1;
    SplitConcat(".", r1, '/');
    SplitConcat("mods", r2, '/');
    SplitConcat("deathmatch", r3, '/');
    SplitConcat("resources", rest, '/');
    SplitNone(".", '/');
    SplitNone("mods", '/');
    SplitNone("deathmatch", '/');
    SplitNone("resources", '/');
  }

  /** A path below a resource's directory stays there, whatever the script wrote,
      exactly when the resource's name is an ordinary directory name. */
  lemma StaysInResource(name: string, metaPath: string)
    requires '/' !in name && ValidPath(metaPath)
    ensures Resolve(Split(BASE + name + "/" + metaPath, '/'), [])
              == Inside(RESOURCES + [name] + Parts(Split(metaPath, '/')))
            <==> name != "" && name != "." && name != ".."
  {
    hide Split, Find;
    var later := Split(metaPath, '/');
    ValidHasNoParent(metaPath);
    assert BASE + name + "/" + metaPath == BASE + (name + ['/'] + metaPath);
    SplitBase(name + ['/'] + metaPath);
    SplitConcat(name, metaPath, '/');
    SplitNone(name, '/');
    FromBase([name] + later);
    FromResources(name, later);
    ResolveForward(later, RESOURCES);
    ResolveForward(later, ["mods", "deathmatch"]);
    ResolveForward(later, RESOURCES + [name]);
  }

  lemma FromBase(names: seq<string>)
    ensures Resolve([".", "mods", "deathmatch", "resources"] + names, []) == Resolve(names, RESOURCES)
  {
    hide Resolve;
    ResolveStep(".", ["mods", "deathmatch", "resources"] + names, []);
    ResolveStep("mods", ["deathmatch", "resources"] + names, []);
    ResolveStep("deathmatch", ["resources"] + names, ["mods"]);
    ResolveStep("resources", names, ["mods", "deathmatch"]);
    assert [".", "mods", "deathmatch", "resources"] + names == ["."] + (["mods", "deathmatch", "resources"] + names);
    assert ["mods", "deathmatch", "resources"] + names == ["mods"] + (["deathmatch", "resources"] + names);
    assert ["deathmatch", "resources"] + names == ["deathmatch"] + (["resources"] + names);
    assert [] + ["mods"] == ["mods"] && ["mods"] + ["deathmatch"] == ["mods", "deathmatch"];
    assert ["mods", "deathmatch"] + ["resources"] == RESOURCES;
  }

  lemma FromResources(name: string, later: seq<string>)
    ensures Resolve([name] + later, RESOURCES) ==
              if name == "" || name == "." then Resolve(later, RESOURCES)
              else if name == ".." then Resolve(later, ["mods", "deathmatch"])
              else Resolve(later, RESOURCES + [name])
  {
    assert ([name] + later)[1..] == later;
    assert RESOURCES[..2] == ["mods", "deathmatch"];
  }

  lemma ResolveStep(name: string, later: seq<string>, dirs: seq<string>)
    requires name != "" && name != ".."
    ensures Resolve([name] + later, dirs) == Resolve(later, if name == "." then dirs else dirs + [name])
  {
    assert ([name] + later)[1..] == later;
  }

  predicate OrdinaryName(name: string) {
    name != "" && name != "." && name != ".." && '/' !in name && '\0' !in name
  }

  /** The resource an input refers to: the one it names, or the script's own. */
  ghost function Owner(strInput: string, rName: string): string {
    var s := Slashed(strInput);
    if s != [] && s[0] == ':' && Find(s, '/') > 0 then s[1..Find(s, '/')] else rName
  }

  /** Whatever the script wrote, an accepted path lies in the directory of the
      resource it refers to, which is registered or the script's own. */
  lemma AcceptedStaysInResource(strInput: string, rName: string, resources: set<string>)
    requires '\0' !in strInput && OrdinaryName(rName) && forall r :: r in resources ==> OrdinaryName(r)
    requires Parse(strInput, rName, resources).Accepted?
    ensures var Accepted(path, metaPath) := Parse(strInput, rName, resources);
            var name := Owner(strInput, rName);
            && (if strInput != "" && strInput[0] == ':' then name in resources else name == rName)
            && Resolve(Split(path, '/'), []) == Inside(RESOURCES + [name] + Parts(Split(metaPath, '/')))
  {
    hide Find, Split;
    SlashedHasNoNul(strInput);
    FirstSlashed(strInput);
    var Accepted(path, metaPath) := Parse(strInput, rName, resources);
    var name := Owner(strInput, rName);
    CStringWhole(name);
    CStringWhole(metaPath);
    StaysInResource(name, metaPath);
  }

  lemma {:induction false} SlashedHasNoNul(s: string)
    requires '\0' !in s
    ensures '\0' !in Slashed(s)
  {
    if s != [] {
      SlashedHasNoNul(s[1..]);
    }
  }

  // ------------------------------------------------------------ equivalences

  /** Which way the slashes lean makes no difference. */
  lemma SlashesInterchangeable(s: string, t: string, rName: string, resources: set<string>)
    requires |s| == |t|
    requires forall i :: 0 <= i < |s| ==> s[i] == t[i] || (s[i] in "/\\" && t[i] in "/\\")
    ensures Parse(s, rName, resources) == Parse(t, rName, resources)
  {
    SameSlashed(s, t);
  }

  lemma {:induction false} SameSlashed(s: string, t: string)
    requires |s| == |t|
    requires forall i :: 0 <= i < |s| ==> s[i] == t[i] || (s[i] in "/\\" && t[i] in "/\\")
    ensures Slashed(s) == Slashed(t)
  {
    if s != [] {
      SameSlashed(s[1..], t[1..]);
    }
  }

  /** A ':' without a slash is always refused. */
  lemma ColonNeedsSlash(strInput: string, rName: string, resources: set<string>)
    requires strInput != [] && strInput[0] == ':' && '/' !in strInput && '\\' !in strInput
    ensures Parse(strInput, rName, resources).Rejected?
  {
    ReplaceNone(strInput, "\\", "/");
  }

  /** The path, with its slashes straight, begins with the name of a registered
      resource, as in ':name/path', and goes on with a valid path. */
  ghost predicate NamesResource(m: string, resources: set<string>) {
    var k := Find(m, '/');
    && m != "" && m[0] == ':' && 0 < k < |m| - 1
    && m[1..k] in resources && ValidPath(m[k + 1..])
  }

  /** Naming a registered resource means the same as writing the plain path in
      it, unless the path is empty, which only the plain form accepts, or itself
      names a resource and a valid path in it, which only the plain form accepts. */
  lemma FormsAgree(res: string, metaPath: string, resources: set<string>)
    requires res in resources && OrdinaryName(res) && '\\' !in res && '\0' !in metaPath
    ensures Parse(":" + res + "/" + metaPath, res, resources) == Parse(metaPath, res, resources)
            <==> metaPath != "" && !NamesResource(Slashed(metaPath), resources)
  {
    hide Find, ReplaceAll, CString;
    var m := Slashed(metaPath);
    var s := ":" + res + "/" + m;
    SlashedForm(res, metaPath);
    assert s[1 + |res|] == '/' && '/' !in s[..1 + |res|];
    FindIs(s, '/', 1 + |res|);
    assert s[1..1 + |res|] == res && s[2 + |res|..] == m;
    SlashedHasNoNul(metaPath);
    CStringWhole(res);
    CStringWhole(m);
    FirstSlashed(metaPath);
    ColonIsInvalid(m);
    assert metaPath == "" ==> ValidPath(m);
    if metaPath != "" && metaPath[0] == ':' {
      ColonForm(metaPath, res, resources);
    }
  }

  /** What the parser makes of an input that begins with ':'. */
  lemma ColonForm(strInput: string, rName: string, resources: set<string>)
    requires '\0' !in strInput && strInput != "" && strInput[0] == ':'
    ensures Parse(strInput, rName, resources).Accepted? <==> NamesResource(Slashed(strInput), resources)
  {
    var m := Slashed(strInput);
    var k := Find(m, '/');
    FirstSlashed(strInput);
    SlashedHasNoNul(strInput);
    if k < |m| {
      CStringWhole(m[1..k]);
      CStringWhole(m[k + 1..]);
    }
  }

  /** A text, and what may follow it in a string: nothing, or a NUL and more. */
  predicate EndsText(text: string, tail: string) {
    '\0' !in text && (tail == "" || tail[0] == '\0')
  }

  lemma {:induction false} TextEnds(text: string, tail: string)
    requires EndsText(text, tail)
    ensures CString(text + tail) == text
  {
    if text == "" {
      assert text + tail == tail;
    } else {
      assert (text + tail)[1..] == text[1..] + tail;
      TextEnds(text[1..], tail);
    }
  }

  /** What a plain path means, when its slashes are straight. It is judged by its
      text, and kept whole. */
  lemma PlainForm(text: string, tail: string, rName: string, resources: set<string>)
    requires EndsText(text, tail) && '\\' !in text + tail && (text == "" || text[0] != ':')
    ensures var path := text + tail;
            Parse(path, rName, resources)
            == if Acceptable(text) then Accepted(BASE + rName + "/" + path, path) else Rejected
  {
    hide ReplaceAll, CString, ValidPath, Acceptable;
    ReplaceNone(text + tail, "\\", "/");
    TextEnds(text, tail);
    ValidPathMeans(text);
  }

  /** Straightening the slashes first changes nothing. */
  lemma SlashedMeans(s: string, rName: string, resources: set<string>)
    ensures |Slashed(s)| == |s| && forall i :: 0 <= i < |s| ==> Slashed(s)[i] == if s[i] == '\\' then '/' else s[i]
    ensures Parse(s, rName, resources) == Parse(Slashed(s), rName, resources)
  {
    SlashedAt(s);
    SlashesInterchangeable(s, Slashed(s), rName, resources);
  }

  lemma {:induction false} SlashedAt(s: string)
    ensures |Slashed(s)| == |s| && forall i :: 0 <= i < |s| ==> Slashed(s)[i] == if s[i] == '\\' then '/' else s[i]
  {
    if s != [] {
      SlashedAt(s[1..]);
    }
  }

  lemma ColonPieces(name: string, path: string)
    requires '/' !in name
    ensures var s := ":" + name + "/" + path;
            && s != [] && s[0] == ':' && |s| == 2 + |name| + |path|
            && s[1 + |name|] == '/' && '/' !in s[..1 + |name|]
            && s[1..1 + |name|] == name && s[2 + |name|..] == path
  {
  }

  /** What the form ':name/path' means, when its slashes are straight. The name
      is looked up and the path judged by their texts; both are kept whole. */
  lemma NamedForm(name: string, nameTail: string, text: string, tail: string, rName: string, resources: set<string>)
    requires EndsText(name, nameTail) && EndsText(text, tail)
    requires '/' !in name + nameTail && '\\' !in name + nameTail && '\\' !in text + tail
    ensures var path := text + tail;
            Parse(":" + (name + nameTail) + "/" + path, rName, resources)
            == if name in resources && text != "" && Acceptable(text) then
                 Accepted(BASE + (name + nameTail) + "/" + path, path)
               else Rejected
  {
    hide Find, ReplaceAll, CString, ValidPath, Acceptable, BASE;
    var whole, path := name + nameTail, text + tail;
    var s := ":" + whole + "/" + path;
    ReplaceNone(s, "\\", "/");
    ColonPieces(whole, path);
    FindIs(s, '/', 1 + |whole|);
    TextEnds(name, nameTail);
    TextEnds(text, tail);
    ValidPathMeans(text);
  }

  lemma WholeNamedForm(name: string, path: string, rName: string, resources: set<string>)
    requires '/' !in name && '\\' !in name && '\0' !in name && '\\' !in path && '\0' !in path
    ensures Parse(":" + name + "/" + path, rName, resources)
            == if name in resources && path != "" && Acceptable(path) then Accepted(BASE + name + "/" + path, path)
               else Rejected
  {
    hide Parse, BASE, Acceptable;
    NamedForm(name, "", path, "", rName, resources);
    assert name + "" == name && path + "" == path;
  }

  /** With two registered resources, a path into the second is understood plain,
      and refused behind the name of the first. */
  lemma NestedFormDiffers()
    ensures var resources := {"a", "b"};
            && Parse(":a/:b/c", "a", resources) == Rejected
            && Parse(":b/c", "a", resources) == Accepted(BASE + "b/c", "c")
  {
    hide Parse, BASE;
    WholeNamedForm("a", ":b/c", "a", {"a", "b"});
    assert ":" + "a" + "/" + ":b/c" == ":a/:b/c";
    assert !Acceptable(":b/c") by {
      assert ":b/c"[0] == ':';
    }
    WholeNamedForm("b", "c", "a", {"a", "b"});
    assert ":" + "b" + "/" + "c" == ":b/c";
    assert Acceptable("c");
    assert BASE + "b" + "/" + "c" == BASE + "b/c";
  }

  /** The empty path tells the two forms apart. */
  lemma EmptyPathDiffers(res: string, resources: set<string>)
    requires res in resources && OrdinaryName(res) && '\\' !in res
    ensures Parse(":" + res + "/", res, resources) == Rejected
    ensures Parse("", res, resources) == Accepted(BASE + res + "/", "")
  {
    hide Find, ReplaceAll, CString;
    WholeNamedForm(res, "", res, resources);
    assert ":" + res + "/" + "" == ":" + res + "/";
    ReplaceNone("", "\\", "/");
    CStringWhole("");
    assert BASE + res + "/" + "" == BASE + res + "/";
  }

  lemma SlashedForm(res: string, metaPath: string)
    requires '\\' !in res
    ensures Slashed(":" + res + "/" + metaPath) == ":" + res + "/" + Slashed(metaPath)
  {
    ReplaceConcat(":" + res + "/", metaPath, "\\", "/");
    ReplaceNone(":" + res + "/", "\\", "/");
  }

  lemma FirstSlashed(s: string)
    ensures |Slashed(s)| == |s| && (s != [] ==> (Slashed(s)[0] == ':' <==> s[0] == ':'))
  {
    SameLength(s);
  }
}
