# Verified model of the MTA:SA server modules

The repository is a set of C++ modules that extend a game server's Lua scripts.
This project models the five parts of it whose correctness is not local to one
function, and proves what they guarantee.

**Sockets** (`Lists`, `SocketSpec`, `SocketInvariant`, `SocketHandlers`,
`SocketTurns`, `SocketRuns`, `SocketTheorems`, `SocketLateData`, `SocketStops`,
`SocketPassive`, `SocketFaults`, `SocketReference`, `SocketRefinement`,
`SocketModule`). Three global containers share raw pointers to
CSocket objects, and every event calls Lua synchronously, which may open, write
and close sockets, or stop a resource, before control returns. A handler is an
arbitrary finite tree of such calls (`SocketSpec.Script`); what the operating
system answers is arbitrary input. `SocketModule` is the program as classes
that update fields in place; each method is proved to compute its function in
`SocketSpec`, and to use live objects only. The other files prove properties
of those functions: one invariant that survives any nesting of handlers, and
from it memory safety, single deletion, event order, turn order, descriptor
accounting and silence after a resource stops, for every run.
`SocketReference` says what all this means to a script: one list of open
sockets, without queue, deferred deletion or repeated searches, and with the
system's numbers written out. `SocketRefinement` proves that the module does
exactly that, however handlers nest. `SocketFaults` shows that a use of a deleted
object would be noticed. The history
(`Entry`, `Halt`) and `faulted` are part of the specification only. `SockOpen`,
`SockWrite` and `SockClose` are the Lua entry points of
sockets/src/CFunctions.cpp, and `Lists.Without` is `ListRemove` of
sockets/include/ml_sockets.h.

**Texture dictionaries** (`Bytes`, `TxdFormat`, `TxdWriter`, `TxdTheorems`,
`TxdBytes`, `TextureDictionary`). `TxdFormat` has the layout of the format with true sizes,
and a reader that walks it by the declared sizes alone, each proved to undo the
other. `TxdWriter` has what the program emits, with sizes computed as the
program computes them, in 32 bits. `ReadsBackExactly` says exactly which
dictionaries are written as files that read back to their contents, and `TxdBytes`
which bytes stand where.

**Pixels and texture records** (`TextureImage`, `TextureData`): the nested loops
that serialise an image, and the constructor that derives a texture's sizes.

**Resource paths** (`Text`, `ResourcePaths`): validation, in-place replacement,
and the two-form parser with its 32-bit wrap-around.

**Client flags** (`Bits`, `ClientFlags`): the flag argument of mysql_connect,
with `|=` as bitwise or on numbers.

Conventions: the Linux branches of CSocket, with Linux errno values; bytes are
little-endian; `close()` answers through `closeFails`, fixed when the socket is
created, since it is called at most once for each; a socket's identity is its
place in the order of construction, and its userdata is arbitrary, so two
sockets may have equal userdata. Texture sizes start at 0, as in
Texturizer/TextureWriter/AppMain.cpp:61, where TextureData.cpp leaves the field
uninitialised. C strings handed to the models are their text.

Where code and documentation disagree, the model follows the code:
- TextureDictionary.hpp:49 announces -1 when adding a texture fails; adding never fails.
- ChunkInfo.hpp:42 calls `count` the number of textures; it is that number modulo 65536, and larger dictionaries cannot be read back (`TooManyTextures`).
- A file that cannot be opened sets the error code -2 (TextureImage.cpp:80), which the caller replaces by -3 before anyone can see it.
- gd's alpha 127 means transparent, and is written as 255 (TextureImage.cpp:115).
- A script may expect no onSockData after onSockClosed; `LateDataExactly` gives the case in which it comes, `LateDataHappens` the whole history of a run in which it does, and `NoCloseNoLateData` a way to avoid it. So it is with events after a resource has stopped itself (`HeardAfterStop`).
- A flag list may begin with or contain an empty name, which counts as `compress`; an empty name at the end counts as nothing (`EmptySegments`, `EmptyNamesCountForNothing`).
- A texture made by TextureData carries unspecified pixels: the constructor allocates the buffer for them and never fills it (TextureData.cpp:52).
- The plain form of a resource path accepts the empty path, the `:resource/` form refuses it (`EmptyPathDiffers`). Behind `:resource/`, a path that itself names a resource is refused (`NestedFormDiffers`).

## Model

| member | source | states |
|---|---|---|
| Lists.WithoutIsKeep | sockets/src/CSocketManager.cpp:62-65 | on a duplicate-free container, removing the first match removes every match and keeps the order of the rest |
| SocketSpec.SocketRemove | sockets/src/CSocketManager.cpp:60-67 | whatever the close handler does, processQueue does not grow, so the pulse loop ends |
| SocketSpec.Turns | sockets/src/CSocketManager.cpp:19-31 | the pulse loop terminates with an empty queue for all handlers |
| SocketSpec.DoPulse | sockets/src/CSocketManager.cpp:16-40 | a pulse terminates and leaves processQueue and deleteList empty |
| SocketInvariant.LegalSnoc | sockets/src/CSocket.cpp:66-75 | a history stays legal when an allowed entry is added |
| SocketInvariant.EvolvesTransitive | sockets/src/CSocketManager.cpp:19-31 | the way a pulse may change the containers and the history composes |
| SocketInvariant.GrowsTransitive | sockets/src/CSocketManager.cpp:60-67 | the way a handler may change the module composes over its calls |
| SocketHandlers.ScanFinds | sockets/src/CSocketManager.cpp:69-106 | a search touches live objects only and answers the first match, or that there is none |
| SocketHandlers.GetSocketAnswers | sockets/src/CSocketManager.cpp:69-88 | GetSocket answers the socket at the first position with this userdata, and none exactly for the null pointer or when there is no such position |
| SocketHandlers.ShutKeeps | sockets/src/CSocketManager.cpp:60-64 | once a socket is off both containers and closed, the invariant holds with it on no list: its handler may run |
| SocketHandlers.SockOpenOutcome | sockets/src/CSocket.cpp:12-55 | opening is refused at the cap, or leaves nothing behind but a possible failed close, or adds one connected-to-be socket at the back |
| SocketHandlers.SocketRemoveKeeps | sockets/src/CSocketManager.cpp:60-67 | removal keeps the invariant under any close handler, even when it is removing from within other removals; the socket ends on deleteList and off vecSockets |
| SocketHandlers.RunCallsKeeps | sockets/src/CSocket.cpp:261-276 | any handler, however nested, keeps the invariant and only grows the module |
| SocketHandlers.ResourceStoppedKeeps | sockets/src/CSocketManager.cpp:43-51 | stopping a resource keeps the invariant even from inside handlers |
| SocketTurns.SocketPulseKeeps | sockets/src/CSocket.cpp:87-156 | the pulsed socket stays allocated to the end of its turn although its own handlers may close it, and the invariant holds when the turn succeeds or the socket is about to be removed |
| SocketTurns.DataUnfolds | sockets/src/CSocket.cpp:117-131 | data that has arrived is reported up to its first NUL, and the onSockData handler runs to completion |
| SocketTurns.RemoveAgainKeeps | sockets/src/CSocketManager.cpp:26-30 | removing a socket that its own handler already removed fires nothing and leaves it on deleteList once |
| SocketTurns.TurnKeeps | sockets/src/CSocketManager.cpp:20-31 | a turn keeps the invariant; the rest of the queue loses exactly the removed sockets |
| SocketTurns.FailedTurnKeeps | sockets/src/CSocketManager.cpp:26-30 | a socket whose pulse fails is off vecSockets and on deleteList afterwards |
| SocketRuns.TurnsKeep | sockets/src/CSocketManager.cpp:19-31 | turns come in queue order, one at most for each socket; a socket without a turn has been removed |
| SocketRuns.PulseKeeps | sockets/src/CSocketManager.cpp:16-40 | after a pulse the live sockets are exactly vecSockets; turns follow the snapshot's order, and sockets added meanwhile get none |
| SocketRuns.FlushKeeps | sockets/src/CSocketManager.cpp:33-39 | cleaning up frees only what is on deleteList and uses nothing already freed |
| SocketRuns.RunKeeps | sockets/src/CSocketManager.cpp:16-67 | the invariant holds after every run of pulses, Lua code and resource stops |
| SocketTheorems.EveryRunIsSafe | sockets/src/CSocketManager.cpp:16-67 | no run uses a freed socket; vecSockets and deleteList are duplicate-free and disjoint, and hold exactly the live objects |
| SocketTheorems.HandlersFreeNothing | sockets/src/CSocket.cpp:261-276 | every object live when an event fires is live when its handler has returned |
| SocketTheorems.EveryPulseCleansUp | sockets/src/CSocketManager.cpp:33-39 | after any run ending in a pulse, exactly the sockets in vecSockets are allocated |
| SocketTheorems.HandleConservation | sockets/src/CSocket.cpp:225-240 | in every run the counter is the number of open descriptors plus the number of failed closes, at most 255 |
| SocketTheorems.LegalMeansProtocol | sockets/src/CSocket.cpp:242-276 | a legal history orders the entries of each socket as the protocol demands, and gives a removed socket data only in the turn that opened it |
| SocketTheorems.EveryRunFollowsProtocol | sockets/src/CSocket.cpp:66-156 | in every run: at most one onSockOpened and one onSockClosed for a socket, data only after opening, nothing after deletion, and after removal only data of the very turn that opened the socket; a removed socket was removed once, with onSockClosed or silently |
| SocketTheorems.SilentOnceRemoved | sockets/src/CSocketManager.cpp:26-30 | a socket off vecSockets between operations never fires an event again |
| SocketTheorems.ResourceStoppedFilters | sockets/src/CSocketManager.cpp:43-51 | stopping a resource is an order-preserving filter of both containers; the removed sockets are closed, queued for deletion once in order, and no event fires |
| SocketTheorems.StoppedVmStaysSilent | sockets/src/CSocketManager.cpp:43-51 | after a stop, an event on that VM presupposes a socket opened since |
| SocketTheorems.HandleStopDeletes | sockets/src/CSocketManager.cpp:108-120 | shutdown deletes every live object, closes every descriptor and empties the containers |
| SocketTheorems.ShutdownFreesAll | sockets/src/CSocketManager.cpp:108-120 | after any run and shutdown, every object ever constructed has been freed exactly once |
| SocketLateData.LateDataExactly | sockets/src/CSocket.cpp:117-148 | onSockData reaches an already removed socket if and only if the same turn reported it opened, its handler removed it, and data had arrived |
| SocketLateData.LateDataHappens | sockets/src/CSocket.cpp:117-148 | the complete history of a run in which it happens, by a handler that closes its socket and by one that stops its resource |
| SocketLateData.DataHandlerCloses | sockets/src/CSocket.cpp:117-148 | the complete history of a run in which the onSockData handler closes its own socket |
| SocketLateData.RunCallsSpare | sockets/src/CSocketManager.cpp:43-88 | a handler that nowhere closes a socket's userdata and nowhere stops its VM leaves the socket in vecSockets |
| SocketLateData.NoCloseNoLateData | sockets/src/CSocket.cpp:117-148 | such an onSockOpened handler is never followed by late data |
| SocketStops.RunHolds | sockets/src/CSocketManager.cpp:43-51 | in every run, all sockets a VM had when it was stopped had been removed by then, also when it was stopped from inside handlers |
| SocketStops.HeardAfterStop | sockets/src/CSocketManager.cpp:43-51 | in every run, an event on a VM after its stop, wherever that came, concerns a socket opened since, or is onSockData in the turn that was on and had opened its socket |
| SocketPassive.PassiveSocketPulse | sockets/src/CSocket.cpp:87-156 | without re-entrant calls, when a socket survives its turn and what events it gets, by the answers of select and recv alone |
| SocketPassive.PassivePulse | sockets/src/CSocketManager.cpp:16-40 | without re-entrant calls a pulse is a filter: survivors keep their order, the others are reported closed and freed in order |
| SocketFaults.UseAfterDeletionFaults | sockets/src/CSocketManager.cpp:16-67 | pulsing, removing, deleting or finding a deleted object would set the fault that no run sets |
| SocketFaults.CallsStayFaulted | sockets/src/CSocket.cpp:261-276 | no handler clears a fault |
| SocketRefinement.LookupFinds | sockets/src/CSocketManager.cpp:69-88 | the search in vecSockets finds what the list of open sockets says |
| SocketRefinement.OpenRefines | sockets/src/CSocket.cpp:12-55 | opening, through every failure, changes the list and the counters as the reference does |
| SocketRefinement.StopRefines | sockets/src/CSocketManager.cpp:43-51 | searching from the front each time has the effect of one pass over the list |
| SocketRefinement.PerformRefines | sockets/src/CSocket.cpp:261-276 | any handler, however nested, does to the list of open sockets what the reference does |
| SocketRefinement.TurnRefines | sockets/src/CSocket.cpp:87-156 | a turn has the effect of the reference's turn: which events, which handlers, and whether the socket is lost, by select, recv and errno |
| SocketRefinement.StepRefines | sockets/src/CSocketManager.cpp:16-67 | a pulse gives turns to those of the sockets it finds that are there when their turn comes |
| SocketRefinement.EveryRunRefines | sockets/src/CSocketManager.cpp:16-67 | in every run the open sockets, the counters and the history are those of the reference |
| SocketRefinement.WholeLifeRefines | sockets/src/CSocketManager.cpp:16-120 | and so they are after shutdown, which closes every socket in order |
| SocketModule.CSocket.constructor | sockets/src/CSocket.cpp:12-55 | the new object, the counter and all else are as specified, through every failure |
| SocketModule.CSocket.Delete | sockets/src/CSocket.cpp:57-64 | deleting a live object closes its descriptor if open |
| SocketModule.CSocket.CloseSocketWithEvent | sockets/src/CSocket.cpp:66-75 | closes and reports once, and does nothing to a closed socket |
| SocketModule.CSocket.Send | sockets/src/CSocket.cpp:77-85 | sends only on an open socket |
| SocketModule.CSocket.DoPulse | sockets/src/CSocket.cpp:87-156 | computes the specified turn and verdict; the object is live throughout |
| SocketModule.CSocket.Receive | sockets/src/CSocket.cpp:107-148 | the terminator is written inside the buffer, and Lua gets the text up to the first NUL |
| SocketModule.CSocket.CloseSocket | sockets/src/CSocket.cpp:225-240 | the counter goes down unless close fails, and the descriptor is forgotten in any case |
| SocketModule.CSocket.HandleConnection | sockets/src/CSocket.cpp:242-259 | connects and reports, waits, or fails, by errno |
| SocketModule.CSocket.TriggerEvent | sockets/src/CSocket.cpp:261-276 | the module is afterwards as the handler left it |
| SocketModule.CSocketManager.DoPulse | sockets/src/CSocketManager.cpp:16-40 | the in-place loops compute the specified pulse |
| SocketModule.CSocketManager.ResourceStopped | sockets/src/CSocketManager.cpp:43-51 | the search-and-remove loop computes the specified stop |
| SocketModule.CSocketManager.SocketAdd | sockets/src/CSocketManager.cpp:54-58 | appends to vecSockets and changes nothing else |
| SocketModule.CSocketManager.SocketRemove | sockets/src/CSocketManager.cpp:60-67 | computes the specified removal, with or without the event |
| SocketModule.CSocketManager.GetSocket | sockets/src/CSocketManager.cpp:69-88 | answers the first element of vecSockets whose m_pUserdata is this one; null exactly for a null userdata or when there is none |
| SocketModule.CSocketManager.GetSocketByLuaVM | sockets/src/CSocketManager.cpp:91-106 | answers the first element of vecSockets of this VM; null exactly when there is none |
| SocketModule.CSocketManager.HandleStop | sockets/src/CSocketManager.cpp:108-120 | computes the specified shutdown |
| SocketModule.ListRemove | sockets/src/CSocketManager.cpp:62-65 | erases the first match |
| SocketModule.Serve | sockets/src/CSocketManager.cpp:16-120 | from loading to shutdown, the program on its shared objects ends as the reference says |
| Bytes.UnLEOfLE | Texturizer/TextureWriter/TextureDictionary.cpp:50-54 | a little-endian field reads back |
| TxdFormat.ReadOfLayout | Texturizer/TextureWriter/ChunkInfo.hpp:21-89 | every contents the format can express is read back from its layout |
| TxdFormat.LayoutOfRead | Texturizer/TextureWriter/ChunkInfo.hpp:21-89 | whatever the reader accepts is the layout of what it returns |
| TxdWriter.AddSizesWraps | Texturizer/TextureWriter/TextureDictionary.cpp:104-122 | the 32-bit accumulator is the true sum modulo 2^32, and the true sum exactly when that is below 2^32 |
| TxdWriter.AscendingIsSorted | Texturizer/TextureWriter/TextureDictionary.cpp:138-142 | iteration visits every id once, in ascending order |
| TxdTheorems.TrueSizesEmitLayout | Texturizer/TextureWriter/TextureDictionary.cpp:66-102 | with true sizes from the caller, a texture is emitted as the format lays it out, with a true outer size |
| TxdTheorems.LayoutNeedsTrueSizes | Texturizer/TextureWriter/TextureDictionary.cpp:66-122 | and only then |
| TxdTheorems.DescribableWritesLayout | Texturizer/TextureWriter/TextureDictionary.cpp:124-150 | a describable dictionary is written as the format prescribes |
| TxdTheorems.LayoutNeedsDescribable | Texturizer/TextureWriter/TextureDictionary.cpp:124-150 | and only a describable one |
| TxdTheorems.ReadsBackExactly | Texturizer/TextureWriter/TextureDictionary.cpp:124-150 | a written file reads back to every field and byte, textures in ascending id order, if and only if there are fewer than 65536, all sizes given are true, palettes go with depth 8, and the total is below 2^32 |
| TxdTheorems.DeclaredSizesAreTrue | Texturizer/TextureWriter/TextureDictionary.cpp:104-122 | the declared sizes are the bytes after the header for the struct, the texture and the file |
| TxdTheorems.TooManyTextures | Texturizer/TextureWriter/TextureDictionary.cpp:135-136 | 65536 textures, each true to its sizes, make a file that does not read back |
| TxdBytes.FieldBytes | Texturizer/TextureWriter/TextureDictionary.cpp:50-54 | fields are written least significant byte first |
| TxdBytes.TextureBytes | Texturizer/TextureWriter/TextureDictionary.cpp:66-102 | which field of a texture stands at which offset of its chunk |
| TxdBytes.FileBytes | Texturizer/TextureWriter/TextureDictionary.cpp:124-150 | the first 28 bytes, where each texture chunk begins, and the last 12 bytes |
| TxdBytes.WritingOrder | Texturizer/TextureWriter/TextureDictionary.cpp:138-142 | the textures are written in ascending order of their ids, each once |
| TextureDictionaries.EnoughKeys | Texturizer/TextureWriter/TextureDictionary.cpp:33-35 | if 0 to n-1 are taken there are at least n textures |
| TextureDictionaries.AddGrows | Texturizer/TextureWriter/TextureDictionary.cpp:31-41 | adding overwrites no texture, and the id is at most the number stored |
| TextureDictionaries.IdsStayBelowPeak | Texturizer/TextureWriter/TextureDictionary.cpp:31-46 | over all additions and removals, every id handed out is below the peak number of textures stored |
| TextureDictionaries.PeakIsReached | Texturizer/TextureWriter/TextureDictionary.cpp:31-46 | that peak is the largest number of textures after any of the edits |
| TextureDictionaries.TextureDictionary.AddTexture | Texturizer/TextureWriter/TextureDictionary.cpp:31-41 | the loop ends at the least unused id |
| TextureDictionaries.TextureDictionary.RemoveTexture | Texturizer/TextureWriter/TextureDictionary.cpp:43-46 | removes that texture only |
| TextureDictionaries.TextureDictionary.WriteInfo | Texturizer/TextureWriter/TextureDictionary.cpp:48-55 | appends the info chunk |
| TextureDictionaries.TextureDictionary.WriteExtraInfo | Texturizer/TextureWriter/TextureDictionary.cpp:57-64 | appends the extra chunk, with the pointer variable as payload when it is not null |
| TextureDictionaries.TextureDictionary.WriteTextureInfo | Texturizer/TextureWriter/TextureDictionary.cpp:66-102 | appends the specified bytes |
| TextureDictionaries.TextureDictionary.GetFileChunkSize | Texturizer/TextureWriter/TextureDictionary.cpp:104-113 | the loop computes the specified 32-bit sum |
| TextureDictionaries.TextureDictionary.GetTextureChunkSize | Texturizer/TextureWriter/TextureDictionary.cpp:115-122 | the 32-bit size of a texture chunk |
| TextureDictionaries.TextureDictionary.Write | Texturizer/TextureWriter/TextureDictionary.cpp:124-150 | writes the specified file, which reads back when the dictionary is describable |
| TextureImages.AlphaByte | Texturizer/Texturizer/TextureImage.cpp:115 | alpha is written as 0 or 255, and 255 exactly when none was asked for or gd's is 127 |
| TextureImages.ImageAt | Texturizer/Texturizer/TextureImage.cpp:104-125 | pixel (x, y) lies at offset 4(y*w+x) |
| TextureImages.DecodesBack | Texturizer/Texturizer/TextureImage.cpp:104-125 | an image takes 4*w*h bytes, and every pixel's colours and alpha read back |
| TextureImages.FormatFor | Texturizer/TextureWriter/TextureData.cpp:13 | 0x0100 or 0x0200 when compressed and 0x0500 or 0x0600 when not, the first of each with alpha; in BGRA order exactly when not compressed |
| TextureImages.FormatOrders | Texturizer/Texturizer/TextureImage.cpp:44-56 | the table has eight formats, of which 0x0500 and 0x0600 are in BGRA order |
| TextureImages.TextureImage.LoadImageToData | Texturizer/Texturizer/TextureImage.cpp:84-129 | the nested loops append exactly the image's bytes; without an image no byte is appended and the size stays |
| TextureImages.TextureImage.Compress | Texturizer/Texturizer/TextureImage.cpp:131-150 | the data is replaced by the compressor's w*h/2 bytes, copying within bounds |
| TextureDatas.TextureData.constructor | Texturizer/TextureWriter/TextureData.cpp:11-60 | every field of the record, with or without an image; the chunk size is 92 plus the pixels in 32 bits, so the record describes itself exactly when that sum does not wrap |
| TextureDatas.ConstructedReadBack | Texturizer/TextureWriter/TextureData.cpp:51-59 | dictionaries of such textures read back exactly when small enough |
| ResourcePaths.IsValidFilePath | Texturizer/Texturizer/ModuleFilePaths.cpp:44-59 | accepts exactly the strings of characters from ' ' to '~' without ':' and without two dots or two backslashes in a row |
| ResourcePaths.ReplaceOccurrencesInString | Texturizer/Texturizer/ModuleFilePaths.cpp:61-66 | the in-place loop ends and replaces every original occurrence, once |
| ResourcePaths.ReplacingByItselfNeverEnds | Texturizer/Texturizer/ModuleFilePaths.cpp:61-66 | it never ends if the replacement has a character to replace and the string has one too |
| ResourcePaths.ParseResourcePathInput | Texturizer/Texturizer/ModuleFilePaths.cpp:68-97 | with 32-bit positions, accepts and builds exactly the specified paths |
| ResourcePaths.SlashedMeans | Texturizer/Texturizer/ModuleFilePaths.cpp:70 | every backslash is first turned into a slash, and nothing else |
| ResourcePaths.PlainForm | Texturizer/Texturizer/ModuleFilePaths.cpp:90-95 | a plain input is accepted exactly when its text up to a NUL is acceptable, and is kept whole below the script's resource |
| ResourcePaths.NamedForm | Texturizer/Texturizer/ModuleFilePaths.cpp:71-88 | an input ':name/path' is accepted exactly when the name is registered and the path not empty and acceptable, as texts up to a NUL, and is kept whole |
| ResourcePaths.StaysInResource | Texturizer/Texturizer/ModuleFilePaths.cpp:84-92 | a valid path leads into the resource's directory exactly when the resource has an ordinary name |
| ResourcePaths.AcceptedStaysInResource | Texturizer/Texturizer/ModuleFilePaths.cpp:68-97 | every accepted path leads into the directory of the named registered resource, or of the script's own |
| ResourcePaths.SlashesInterchangeable | Texturizer/Texturizer/ModuleFilePaths.cpp:70 | swapping slash directions changes nothing |
| ResourcePaths.ColonNeedsSlash | Texturizer/Texturizer/ModuleFilePaths.cpp:73-88 | a ':' input without a slash is refused |
| ResourcePaths.FormsAgree | Texturizer/Texturizer/ModuleFilePaths.cpp:71-95 | the two forms give the same result exactly when the path is not empty and does not itself consist of ':', a registered name, a slash and a non-empty valid path |
| ResourcePaths.ColonForm | Texturizer/Texturizer/ModuleFilePaths.cpp:71-88 | an input that begins with ':' is accepted exactly when it consists of ':', a registered name, a slash and a non-empty valid path |
| ResourcePaths.NestedFormDiffers | Texturizer/Texturizer/ModuleFilePaths.cpp:71-95 | with `a` and `b` registered, `:b/c` is accepted plain and refused behind `:a/` |
| ResourcePaths.EmptyPathDiffers | Texturizer/Texturizer/ModuleFilePaths.cpp:71-95 | the empty path is refused after `:resource/` and accepted plain |
| ClientFlags.Strncasecmp | mta-mysql/src/handler.cpp:61-75 | stays inside both strings and n characters, answers 0 exactly when the first n characters are equal or the two cases of a letter, and otherwise the difference at the first that are not |
| ClientFlags.LowerMeans | mta-mysql/src/handler.cpp:61-75 | lowering makes equal exactly the texts whose characters are equal or 'A' to 'Z' and 32 above it |
| ClientFlags.GetClientFlag | mta-mysql/src/handler.cpp:78-92 | answers the flag of the first entry that the segment abbreviates, or 0 |
| ClientFlags.ResolveMeans | mta-mysql/src/handler.cpp:78-92 | the flag of the first name that the segment abbreviates; 0 if there is none |
| ClientFlags.EveryName | mta-mysql/src/handler.cpp:44-58 | the eight names and their numbers |
| ClientFlags.TwoNames | mta-mysql/src/handler.cpp:362-373 | `COMPRESS\|Odbc` gives 96 |
| ClientFlags.ExtractClientFlags | mta-mysql/src/handler.cpp:362-373 | the pointer loop computes the bitwise or over the segments between '\|' |
| ClientFlags.NamesRoundTrip | mta-mysql/src/handler.cpp:44-58 | names in any case joined with '\|' give exactly the bitwise or of their flags |
| ClientFlags.DifferentNamesAddUp | mta-mysql/src/handler.cpp:44-58 | the flags of different names add up: none hides another |
| ClientFlags.OrderAndRepetitionDoNotMatter | mta-mysql/src/handler.cpp:366-372 | the result depends only on which names are given, not on order, repetition or case |
| ClientFlags.EmptySegments | mta-mysql/src/handler.cpp:366-372 | an empty segment counts as the first entry wherever it stands, except at the end |
| ClientFlags.EmptyNameMeansEmptySegment | mta-mysql/src/handler.cpp:366-372 | there is an empty segment before the end exactly when the argument begins with '\|' or has two in a row |
| ClientFlags.EmptyNamesCountForNothing | mta-mysql/src/handler.cpp:362-373 | empty names count for nothing exactly when there is none before the end, or a name that is not empty asks for the first entry anyway |

## Left out

- Lua values and stacks, module registration and the function pointers to Lua: foreign interfaces.
- Sockets, name lookup and files themselves: their answers are inputs, and a file is the sequence of bytes written.
- The destination and contents of what is sent: only whether a send happens.
- The null that SAFE_DELETE stores in a container slot during shutdown: the containers are cleared right after.
- The Windows branches of CSocket.
- Overflow of C++ int: the open-socket counter is at most 255, and positions in strings are required to fit 32 bits.
- TextureImages.TextureImage.LoadImageToData: a file that has disappeared since an earlier successful read is excluded, because TextureImage would then use a destroyed image.
- TextureImages.TextureImage.Compress: pixels that overrun the buffer of 4*w*h bytes are excluded, and sizes for which the compressor does not write exactly w*h/2 bytes, because the program then uses memory outside its buffers.
- TextureDatas.TextureData.constructor: as for LoadImageToData and Compress; names of 32 characters or more, which overrun their field, and pixels of 2^32 bytes or more are excluded, too.
- ResourcePaths.ParseResourcePathInput: inputs are shorter than 2^32-1 characters, so that only the failed search wraps around.
- ResourcePaths.AcceptedStaysInResource: containment is lexical; links in the file system are not modelled.
- Mipmaps, which the writer does not emit, and extra-info data itself: the writer emits the pointer variable, which the model does, too.
- squish and gd: the compressor's answer and the image's accessors are inputs.
- TextureInfo::getTextureFileData, TextureContainer, GdImgManager, ml_curl, ml_system, MySQL results and the remaining MySQL methods: wrappers.
