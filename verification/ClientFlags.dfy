/** The client flags argument of mysql_connect: names separated by '|', each
    looked up in a table by case-insensitive prefix. */
module ClientFlags {
  import opened Text
  import opened Bits

  datatype FlagEntry = FlagEntry(name: string, flag: nat)

  function Table(): (t: seq<FlagEntry>)
    ensures |t| == 8
    ensures forall i :: 0 <= i < |t| ==> PlainName(t[i].name)
  {
    var t := [
      FlagEntry("compress", 32),
      FlagEntry("found_rows", 2),
      FlagEntry("ignore_sigpipe", 4096),
      FlagEntry("ignore_space", 256),
      FlagEntry("interactive", 1024),
      FlagEntry("local_files", 128),
      FlagEntry("no_schema", 16),
      FlagEntry("odbc", 64)];
    t
  }

  const BITS: seq<nat> := [5, 1, 12, 8, 10, 7, 4, 6]

  /** Every flag is a single bit of its own. */
  lemma FlagsAreBits()
    ensures |BITS| == |Table()|
    ensures forall i :: 0 <= i < |BITS| ==> Table()[i].flag == OneBit(BITS[i])
    ensures forall i, j :: 0 <= i < j < |BITS| ==> BITS[i] != BITS[j]
  {
    assert OneBit(4) == 16 && OneBit(7) == 128 && OneBit(10) == 1024;
  }

  lemma FlagHasBit(i: nat, bit: nat)
    requires i < |Table()|
    ensures Bit(Table()[i].flag, bit) <==> bit == BITS[i]
  {
    hide Table;
    FlagsAreBits();
    OneBitHasOne(BITS[i], bit);
  }

  predicate PlainName(name: string) {
    name != [] && forall k :: 0 <= k < |name| ==> 'a' <= name[k] <= 'z' || name[k] == '_'
  }

  function ToLower(c: char): char {
    if 'A' <= c <= 'Z' then c + 32 as char else c
  }

  function Lower(s: string): (r: string)
    ensures |r| == |s| && forall i :: 0 <= i < |s| ==> r[i] == ToLower(s[i])
  {
    seq(|s|, i requires 0 <= i < |s| => ToLower(s[i]))
  }

  /** Equal, or the same letter of the alphabet in its two cases. */
  predicate SameLetter(c: char, d: char) {
    || c == d
    || ('A' <= c <= 'Z' && d as int == c as int + 32)
    || ('A' <= d <= 'Z' && c as int == d as int + 32)
  }

  predicate SameText(s: string, t: string) {
    |s| == |t| && forall i :: 0 <= i < |s| ==> SameLetter(s[i], t[i])
  }

  lemma ToLowerMeans(c: char, d: char)
    ensures ToLower(c) == ToLower(d) <==> SameLetter(c, d)
    ensures SameLetter(c, ToLower(c)) && !('A' <= ToLower(c) <= 'Z')
  {
  }

  lemma LowerMeans(s: string, t: string)
    ensures Lower(s) == Lower(t) <==> SameText(s, t)
  {
    hide ToLower, SameLetter;
    if |s| == |t| {
      forall i | 0 <= i < |s| ensures Lower(s)[i] == Lower(t)[i] <==> SameLetter(s[i], t[i]) {
        ToLowerMeans(s[i], t[i]);
      }
      if !SameText(s, t) {
        var i :| 0 <= i < |s| && !SameLetter(s[i], t[i]);
        assert Lower(s)[i] != Lower(t)[i];
      }
    }
  }

  function Clip(s: string, n: nat): string {
    if n < |s| then s[..n] else s
  }

  /** Memory that holds a C string: its text, then the NUL. */
  predicate IsCString(m: seq<char>) {
    m != [] && m[|m| - 1] == '\0' && '\0' !in m[..|m| - 1]
  }

  function TextOf(m: seq<char>): string
    requires IsCString(m)
  {
    m[..|m| - 1]
  }

  ghost predicate AgreeBefore(s1: seq<char>, s2: seq<char>, i: nat) {
    i <= |s1| && i <= |s2| && forall j :: 0 <= j < i ==> ToLower(s1[j]) == ToLower(s2[j])
  }

  /** The comparison: it stays within both strings and within n characters, and
      answers 0 exactly when the first n characters agree, up to letter case; otherwise
      with the difference at the first place where they do not. */
  method Strncasecmp(s1: seq<char>, s2: seq<char>, n: nat) returns (r: int)
    requires IsCString(s1) && IsCString(s2)
    ensures r == 0 <==> SameText(Clip(TextOf(s1), n), Clip(TextOf(s2), n))
    ensures n > 0 ==> exists i :: 0 <= i < n && i < |s1| && i < |s2| && AgreeBefore(s1, s2, i) &&
                        r == ToLower(s1[i]) as int - ToLower(s2[i]) as int
  {
    LowerMeans(Clip(TextOf(s1), n), Clip(TextOf(s2), n));
    if n == 0 {
      return 0;
    }
    var i, left := 0, n;
    while left != 0 && ToLower(s1[i]) == ToLower(s2[i])
      invariant i < |s1| && i < |s2| && left == n - i && left > 0
      invariant AgreeBefore(s1, s2, i)
      decreases left
    {
      left := left - 1;
      if left == 0 || s1[i] == '\0' || s2[i] == '\0' {
        break;
      }
      i := i + 1;
    }
    Decide(s1, s2, n, i);
    r := ToLower(s1[i]) as int - ToLower(s2[i]) as int;
  }

  /** Where the loop stops decides the comparison. */
  lemma Decide(s1: seq<char>, s2: seq<char>, n: nat, i: nat)
    requires IsCString(s1) && IsCString(s2) && i < |s1| && i < |s2| && i < n
    requires AgreeBefore(s1, s2, i)
    requires ToLower(s1[i]) == ToLower(s2[i]) ==> i == n - 1 || s1[i] == '\0' || s2[i] == '\0'
    ensures ToLower(s1[i]) == ToLower(s2[i]) <==> Lower(Clip(TextOf(s1), n)) == Lower(Clip(TextOf(s2), n))
  {
    var a, b := Clip(TextOf(s1), n), Clip(TextOf(s2), n);
    assert forall k :: 0 <= k < |a| ==> a[k] == s1[k];
    assert forall k :: 0 <= k < |b| ==> b[k] == s2[k];
    assert forall k :: 0 <= k < |s1| - 1 ==> s1[k] == s1[..|s1| - 1][k];
    assert forall k :: 0 <= k < |s2| - 1 ==> s2[k] == s2[..|s2| - 1][k];
    if ToLower(s1[i]) == ToLower(s2[i]) {
      assert s1[i] == '\0' <==> s2[i] == '\0';
    } else if |a| == |b| {
      assert i < |a|;
      assert Lower(a)[i] != Lower(b)[i];
    }
  }

  // ------------------------------------------------------------- one name

  /** The segment abbreviates the name, in any letter case. */
  predicate Abbreviates(segment: string, name: string) {
    |segment| <= |name| && SameText(segment, name[..|segment|])
  }

  function ResolveFrom(segment: string, i: nat): nat
    decreases |Table()| - i
  {
    if i >= |Table()| then 0
    else if Abbreviates(segment, Table()[i].name) then Table()[i].flag
    else ResolveFrom(segment, i + 1)
  }

  /** The flag of the first entry that the segment abbreviates, or 0. */
  function Resolve(segment: string): nat {
    ResolveFrom(segment, 0)
  }

  lemma ClipAbbreviates(segment: string, rest: string, name: string)
    ensures SameText(Clip(name, |segment|), Clip(segment + rest, |segment|)) <==> Abbreviates(segment, name)
  {
    assert Clip(segment + rest, |segment|) == segment;
    if |segment| == |name| {
      assert name[..|segment|] == name;
    }
  }

  /** flagStr points into the argument; only its first len characters count. */
  method GetClientFlag(flagStr: seq<char>, len: nat) returns (ret: nat)
    requires IsCString(flagStr) && len < |flagStr|
    ensures ret == Resolve(flagStr[..len])
  {
    hide Table, SameText, Clip, Abbreviates;
    ret := 0;
    var i := 0;
    while i < |Table()|
      invariant 0 <= i <= |Table()|
      invariant Resolve(flagStr[..len]) == ResolveFrom(flagStr[..len], i)
      invariant ret == 0
    {
      var name := Table()[i].name;
      assert PlainName(name);
      assert (name + ['\0'])[..|name|] == name;
      var differ := Strncasecmp(name + ['\0'], flagStr, len);
      assert TextOf(flagStr) == flagStr[..len] + flagStr[len..|flagStr| - 1];
      ClipAbbreviates(flagStr[..len], flagStr[len..|flagStr| - 1], name);
      if differ == 0 {
        ret := Table()[i].flag;
        break;
      }
      i := i + 1;
    }
  }

  // --------------------------------------------------------- the argument

  /** Every segment counts, except an empty one at the end. */
  function FlagsOf(segments: seq<string>): nat
    requires segments != []
  {
    if |segments| == 1 then (if segments[0] == [] then 0 else Resolve(segments[0]))
    else Or(Resolve(segments[0]), FlagsOf(segments[1..]))
  }

  /** The loop of MySQL::Connect over the argument p. */
  method ExtractClientFlags(arg: string) returns (clientFlags: nat)
    requires '\0' !in arg
    ensures clientFlags == FlagsOf(Split(arg, '|'))
  {
    hide Table, Resolve, Find, FlagsOf, Split, Or;
    clientFlags := 0;
    OrZero(FlagsOf(Split(arg, '|')));
    var p := 0;
    assert arg[p..] == arg;
    var s := Find(arg, '|');
    while s < |arg|
      invariant 0 <= p <= s <= |arg| && s == p + Find(arg[p..], '|')
      invariant Or(clientFlags, FlagsOf(Split(arg[p..], '|'))) == FlagsOf(Split(arg, '|'))
      decreases |arg| - p
    {
      var flag := FlagAt(arg, p, s);
      FirstSegment(arg, p, s);
      OrAssociates(clientFlags, flag, FlagsOf(Split(arg[s + 1..], '|')));
      clientFlags := Or(clientFlags, flag);
      p := s + 1;
      s := p + Find(arg[p..], '|');
    }
    LastSegment(arg[p..]);
    assert arg[p..|arg|] == arg[p..];
    if p < |arg| {
      var flag := FlagAt(arg, p, |arg|);
      clientFlags := Or(clientFlags, flag);
    } else {
      OrZero(clientFlags);
    }
  }

  /** getClientFlag on the characters of the argument from p up to s. */
  method FlagAt(arg: string, p: nat, s: nat) returns (flag: nat)
    requires '\0' !in arg && p <= s <= |arg|
    ensures flag == Resolve(arg[p..s])
  {
    var m := arg[p..] + ['\0'];
    assert m[..|m| - 1] == arg[p..];
    assert m[..s - p] == arg[p..s];
    flag := GetClientFlag(m, s - p);
  }

  lemma FirstSegment(arg: string, p: nat, s: nat)
    requires p <= s < |arg| && s == p + Find(arg[p..], '|')
    ensures FlagsOf(Split(arg[p..], '|')) == Or(Resolve(arg[p..s]), FlagsOf(Split(arg[s + 1..], '|')))
  {
    hide Resolve, Find;
    assert arg[p..][..s - p] == arg[p..s];
    assert arg[p..][s - p + 1..] == arg[s + 1..];
    var later := Split(arg[s + 1..], '|');
    assert Split(arg[p..], '|') == [arg[p..s]] + later;
  }

  lemma LastSegment(rest: string)
    requires '|' !in rest
    ensures FlagsOf(Split(rest, '|')) == if rest == [] then 0 else Resolve(rest)
  {
    hide Resolve;
    SplitNone(rest, '|');
  }

  // ------------------------------------------------------------ properties

  /** In full, whatever the letter case, a name stands for its own entry. */
  lemma NameResolvesToItself(word: string, i: nat)
    requires i < |Table()| && SameText(word, Table()[i].name)
    ensures Resolve(word) == Table()[i].flag
  {
    hide Table;
    assert Abbreviates(word, Table()[i].name) by {
      assert Table()[i].name[..|word|] == Table()[i].name;
    }
    forall j | 0 <= j < i ensures !Abbreviates(word, Table()[j].name) {
      NotAbbreviated(word, i, j);
    }
    FirstMatch(word, i, 0);
  }

  ghost predicate FirstAbbreviated(segment: string, i: nat) {
    i < |Table()| && Abbreviates(segment, Table()[i].name) &&
    forall j :: 0 <= j < i ==> !Abbreviates(segment, Table()[j].name)
  }

  /** The flag of a segment is that of the first name it abbreviates, and 0 if it
      abbreviates none. */
  lemma ResolveMeans(segment: string)
    ensures forall i: nat :: FirstAbbreviated(segment, i) ==> Resolve(segment) == Table()[i].flag
    ensures (forall i :: 0 <= i < |Table()| ==> !Abbreviates(segment, Table()[i].name)) ==> Resolve(segment) == 0
  {
    hide Table, Abbreviates;
    forall i: nat | FirstAbbreviated(segment, i) ensures Resolve(segment) == Table()[i].flag {
      FirstMatch(segment, i, 0);
    }
    if forall i :: 0 <= i < |Table()| ==> !Abbreviates(segment, Table()[i].name) {
      NoMatch(segment, 0);
    }
  }

  lemma {:induction false} NoMatch(segment: string, from: nat)
    requires from <= |Table()| && forall i :: from <= i < |Table()| ==> !Abbreviates(segment, Table()[i].name)
    ensures ResolveFrom(segment, from) == 0
    decreases |Table()| - from
  {
    hide Table, Abbreviates;
    if from < |Table()| {
      NoMatch(segment, from + 1);
    }
  }

  lemma LowerTable(i: nat)
    requires i < |Table()|
    ensures Lower(Table()[i].name) == Table()[i].name
  {
    hide Table;
    assert PlainName(Table()[i].name);
  }

  lemma {:induction false} FirstMatch(word: string, i: nat, from: nat)
    requires from <= i < |Table()| && Abbreviates(word, Table()[i].name)
    requires forall j :: from <= j < i ==> !Abbreviates(word, Table()[j].name)
    ensures ResolveFrom(word, from) == Table()[i].flag
    decreases i - from
  {
    hide Table, Abbreviates;
    if from < i {
      FirstMatch(word, i, from + 1);
    }
  }

  /** No entry's name begins with the whole name of a later entry. */
  lemma TableOrder(i: nat, j: nat)
    requires j < i < |Table()|
    ensures var a, b := Table()[i].name, Table()[j].name; !(|a| <= |b| && a == b[..|a|])
  {
    var a, b := Table()[i].name, Table()[j].name;
    assert i == 3 && j == 2 ==> a[8] == 'p' && b[8] == 'i';
    assert i == 4 && (j == 2 || j == 3) ==> a[1] == 'n' && b[1] == 'g';
    assert !(2 <= j < i <= 4) ==> a[0] != b[0];
  }

  lemma NotAbbreviated(word: string, i: nat, j: nat)
    requires j < i < |Table()| && SameText(word, Table()[i].name)
    ensures !Abbreviates(word, Table()[j].name)
  {
    hide Table;
    TableOrder(i, j);
    LowerTable(i);
    LowerTable(j);
    LowerMeans(word, Table()[i].name);
    var b := Table()[j].name;
    if |word| <= |b| {
      LowerMeans(word, b[..|word|]);
      assert Lower(b[..|word|]) == b[..|word|];
    }
  }

  /** The words are names of the table in any letter case, possibly repeated. */
  ghost predicate Names(words: seq<string>, entries: seq<nat>) {
    |words| == |entries| &&
    forall k :: 0 <= k < |words| ==> entries[k] < |Table()| && SameText(words[k], Table()[entries[k]].name)
  }

  /** The bits set in n are those of the flags of these entries. */
  ghost predicate IsOrOf(n: nat, entries: seq<nat>) {
    forall bit: nat :: Bit(n, bit) <==> exists e :: e in entries && e < |Table()| && Bit(Table()[e].flag, bit)
  }

  /** Names of the table in any letter case, joined with '|', parse to exactly
      the bitwise or of their flags. */
  lemma NamesRoundTrip(words: seq<string>, entries: seq<nat>)
    requires words != [] && Names(words, entries)
    ensures IsOrOf(FlagsOf(Split(Join(words, '|'), '|')), entries)
  {
    hide Table, FlagsOf, Join, Split;
    forall k | 0 <= k < |words| ensures '|' !in words[k] {
      PlainWord(words[k], Table()[entries[k]].name);
    }
    SplitOfJoin(words, '|');
    EachResolves(words, entries);
  }

  lemma PlainWord(word: string, name: string)
    requires SameText(word, name) && PlainName(name)
    ensures '|' !in word
  {
    assert forall k :: 0 <= k < |word| ==> SameLetter(word[k], name[k]);
  }

  lemma FlagsOfFirst(words: seq<string>, entries: seq<nat>)
    requires words != [] && Names(words, entries)
    ensures FlagsOf(words) == if |words| == 1 then Table()[entries[0]].flag
                              else Or(Table()[entries[0]].flag, FlagsOf(words[1..]))
  {
    hide Table, Resolve;
    NameResolvesToItself(words[0], entries[0]);
    assert |words[0]| == |Table()[entries[0]].name| > 0;
  }

  lemma {:induction false} EachResolves(words: seq<string>, entries: seq<nat>)
    requires words != [] && Names(words, entries)
    ensures IsOrOf(FlagsOf(words), entries)
  {
    hide Table, Lower, FlagsOf, Bit, Or;
    FlagsOfFirst(words, entries);
    if |words| > 1 {
      EachResolves(words[1..], entries[1..]);
      forall bit: nat {
        OrHasBits(Table()[entries[0]].flag, FlagsOf(words[1..]), bit);
      }
      assert entries == [entries[0]] + entries[1..];
    }
  }

  /** The result depends on which names are given, not on order, repetition or
      letter case. */
  lemma OrderAndRepetitionDoNotMatter(words: seq<string>, entries: seq<nat>, words': seq<string>, entries': seq<nat>)
    requires words != [] && Names(words, entries) && words' != [] && Names(words', entries')
    requires forall e :: e in entries <==> e in entries'
    ensures FlagsOf(Split(Join(words, '|'), '|')) == FlagsOf(Split(Join(words', '|'), '|'))
  {
    hide Table, FlagsOf, Join, Split, Bit;
    NamesRoundTrip(words, entries);
    NamesRoundTrip(words', entries');
    SameBits(FlagsOf(Split(Join(words, '|'), '|')), FlagsOf(Split(Join(words', '|'), '|')));
  }

  function Sum(entries: seq<nat>): nat
    requires forall k :: 0 <= k < |entries| ==> entries[k] < |Table()|
  {
    if entries == [] then 0 else Table()[entries[0]].flag + Sum(entries[1..])
  }

  /** Different names add up: no flag is lost in another. */
  lemma {:induction false} DifferentNamesAddUp(words: seq<string>, entries: seq<nat>)
    requires words != [] && Names(words, entries)
    requires forall i, j :: 0 <= i < j < |entries| ==> entries[i] != entries[j]
    ensures FlagsOf(words) == Sum(entries)
  {
    hide Table, Lower, FlagsOf, Bit, Or, OneBit, IsOrOf;
    FlagsOfFirst(words, entries);
    var e := entries[0];
    FlagsAreBits();
    if |words| > 1 {
      DifferentNamesAddUp(words[1..], entries[1..]);
      EachResolves(words[1..], entries[1..]);
      NotAmong(FlagsOf(words[1..]), entries[1..], e);
      OrOneBit(BITS[e], FlagsOf(words[1..]));
    }
  }

  lemma NotAmong(n: nat, entries: seq<nat>, e: nat)
    requires IsOrOf(n, entries) && e !in entries && e < |Table()|
    ensures !Bit(n, BITS[e])
  {
    hide Table, Bit;
    FlagsAreBits();
    forall e' | e' in entries && e' < |Table()| ensures !Bit(Table()[e'].flag, BITS[e]) {
      FlagHasBit(e', BITS[e]);
    }
  }

  // --------------------------------------------------------- empty segments

  /** What the argument would mean if every empty segment counted for nothing. */
  function FlagsOfNames(segments: seq<string>): nat {
    if segments == [] then 0
    else Or(if segments[0] == [] then 0 else Resolve(segments[0]), FlagsOfNames(segments[1..]))
  }

  ghost predicate HasEmpty(segments: seq<string>) {
    exists i :: 0 <= i < |segments| - 1 && segments[i] == []
  }

  lemma HasEmptyRest(segments: seq<string>)
    requires segments != []
    ensures HasEmpty(segments) <==> |segments| > 1 && (segments[0] == [] || HasEmpty(segments[1..]))
  {
    var rest := segments[1..];
    if |segments| > 1 && HasEmpty(rest) {
      var i :| 0 <= i < |rest| - 1 && rest[i] == [];
      assert segments[i + 1] == [];
    }
    if HasEmpty(segments) && segments[0] != [] {
      var i :| 0 <= i < |segments| - 1 && segments[i] == [];
      assert rest[i - 1] == [];
    }
  }

  /** An empty segment counts as the first name of the table, wherever it stands,
      except at the end. */
  lemma {:induction false} EmptySegments(segments: seq<string>)
    requires segments != []
    ensures FlagsOf(segments) == Or(FlagsOfNames(segments), if HasEmpty(segments) then Table()[0].flag else 0)
  {
    hide Table, HasEmpty, Bit, Or;
    HasEmptyRest(segments);
    EmptyIsFirst();
    var here, rest := Resolve(segments[0]), FlagsOfNames(segments[1..]);
    OrZero(rest);
    OrZero(here);
    if |segments| == 1 {
      OrZero(FlagsOfNames(segments));
    } else {
      EmptySegments(segments[1..]);
      OrZero(FlagsOf(segments[1..]));
      var first := Table()[0].flag;
      OrAssociates(here, rest, first);
      OrCommutes(first, Or(rest, first));
      OrCommutes(first, rest);
      OrAssociates(rest, first, first);
      OrIdempotent(first);
      OrZero(Or(here, rest));
    }
  }

  lemma EmptyIsFirst()
    ensures Resolve([]) == Table()[0].flag
  {
    assert Abbreviates([], Table()[0].name);
  }

  /** The argument begins with '|', or has two in a row. */
  ghost predicate HasEmptyName(arg: string) {
    arg != "" && (arg[0] == '|' || exists i :: 0 <= i < |arg| - 1 && arg[i] == arg[i + 1] == '|')
  }

  lemma {:induction false} EmptyNameMeansEmptySegment(arg: string)
    ensures HasEmpty(Split(arg, '|')) <==> HasEmptyName(arg)
    decreases |arg|
  {
    var k := Find(arg, '|');
    HasEmptyRest(Split(arg, '|'));
    if k < |arg| {
      EmptyNameMeansEmptySegment(arg[k + 1..]);
      EmptyNameAfter(arg, k);
    }
  }

  lemma EmptyNameAfter(arg: string, k: nat)
    requires k < |arg| && arg[k] == '|' && '|' !in arg[..k]
    ensures HasEmptyName(arg) <==> k == 0 || HasEmptyName(arg[k + 1..])
  {
    var rest := arg[k + 1..];
    assert forall i :: 0 <= i < k ==> arg[i] == arg[..k][i];
    if HasEmptyName(rest) && rest[0] != '|' {
      var i :| 0 <= i < |rest| - 1 && rest[i] == rest[i + 1] == '|';
      assert arg[k + 1 + i] == arg[k + 1 + i + 1] == '|';
    }
    if HasEmptyName(arg) && k > 0 {
      var i :| 0 <= i < |arg| - 1 && arg[i] == arg[i + 1] == '|';
      if i > k {
        assert rest[i - k - 1] == rest[i - k - 1 + 1] == '|';
      } else {
        assert i == k && rest[0] == '|';
      }
    }
  }

  lemma {:induction false} OnlyFirstHasItsBit(segment: string, i: nat)
    requires 0 < i <= |Table()|
    ensures !Bit(ResolveFrom(segment, i), BITS[0])
    decreases |Table()| - i
  {
    hide Table, Bit, Abbreviates;
    FlagsAreBits();
    ZeroHasNoBits(BITS[0]);
    if i < |Table()| {
      FlagHasBit(i, BITS[0]);
      OnlyFirstHasItsBit(segment, i + 1);
    }
  }

  ghost predicate NamesFirst(segments: seq<string>) {
    exists i :: 0 <= i < |segments| && segments[i] != [] && Abbreviates(segments[i], Table()[0].name)
  }

  lemma {:induction false} FirstIsNamed(segments: seq<string>)
    ensures Bit(FlagsOfNames(segments), BITS[0]) <==> NamesFirst(segments)
  {
    hide Table, Bit, Or, Abbreviates;
    ZeroHasNoBits(BITS[0]);
    if segments != [] {
      var rest := segments[1..];
      FirstIsNamed(rest);
      OrHasBits(if segments[0] == [] then 0 else Resolve(segments[0]), FlagsOfNames(rest), BITS[0]);
      OnlyFirstHasItsBit(segments[0], 1);
      FlagHasBit(0, BITS[0]);
      if NamesFirst(rest) {
        var i :| 0 <= i < |rest| && rest[i] != [] && Abbreviates(rest[i], Table()[0].name);
        assert segments[i + 1] == rest[i];
      }
      if NamesFirst(segments) && !(segments[0] != [] && Abbreviates(segments[0], Table()[0].name)) {
        var i :| 0 <= i < |segments| && segments[i] != [] && Abbreviates(segments[i], Table()[0].name);
        assert rest[i - 1] == segments[i];
      }
    }
  }

  /** An empty name counts for nothing exactly when there is none before the
      end, or what it stands for is asked for anyway. */
  lemma EmptyNamesCountForNothing(arg: string)
    ensures var segments := Split(arg, '|');
            FlagsOf(segments) == FlagsOfNames(segments) <==> !HasEmptyName(arg) || NamesFirst(segments)
  {
    hide Table, Bit, Or, FlagsOf, FlagsOfNames, Split, HasEmpty, HasEmptyName, NamesFirst, OneBit;
    var segments := Split(arg, '|');
    EmptyNameMeansEmptySegment(arg);
    EmptySegments(segments);
    FirstIsNamed(segments);
    FlagsAreBits();
    OrZero(FlagsOfNames(segments));
    OrCommutes(FlagsOfNames(segments), Table()[0].flag);
    OrOneBit(BITS[0], FlagsOfNames(segments));
  }

  // ---------------------------------------------------------------- examples

  /** The names and their numbers. */
  lemma EveryName()
    ensures Resolve("compress") == 32 && Resolve("found_rows") == 2
    ensures Resolve("ignore_sigpipe") == 4096 && Resolve("ignore_space") == 256
    ensures Resolve("interactive") == 1024 && Resolve("local_files") == 128
    ensures Resolve("no_schema") == 16 && Resolve("odbc") == 64
  {
    hide Resolve;
    ItsOwnFlag(0);
    ItsOwnFlag(1);
    ItsOwnFlag(2);
    ItsOwnFlag(3);
    ItsOwnFlag(4);
    ItsOwnFlag(5);
    ItsOwnFlag(6);
    ItsOwnFlag(7);
  }

  lemma ItsOwnFlag(i: nat)
    requires i < |Table()|
    ensures Resolve(Table()[i].name) == Table()[i].flag
  {
    hide Table;
    NameResolvesToItself(Table()[i].name, i);
  }

  lemma TwoNames()
    ensures FlagsOf(Split("COMPRESS|Odbc", '|')) == 96
  {
    hide Split, FlagsOf, SameText, Table;
    var words, entries := ["COMPRESS", "Odbc"], [0, 7];
    NamesOfExample();
    forall k | 0 <= k < 2 ensures '|' !in words[k] {
      PlainWord(words[k], Table()[entries[k]].name);
    }
    SplitOfJoin(words, '|');
    JoinTwo("COMPRESS", "Odbc");
    DifferentNamesAddUp(words, entries);
    assert entries[1..] == [7] && entries[1..][1..] == [];
    assert "COMPRESS" + ['|'] + "Odbc" == "COMPRESS|Odbc";
  }

  lemma NamesOfExample()
    ensures Names(["COMPRESS", "Odbc"], [0, 7]) && Table()[0].flag == 32 && Table()[7].flag == 64
  {
  }

  lemma JoinTwo(first: string, second: string)
    ensures Join([first, second], '|') == first + ['|'] + second
  {
    assert [first, second][1..] == [second];
  }
}
