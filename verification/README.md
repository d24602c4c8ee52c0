# xcin: a verified model of its cores

xcin is an input method server for X11. This project models the parts of it that are hardest to get right and proves
what each of them is for:

- the **embedded Lisp** that reads the configuration: two garbage collectors that work in place on the cell memory, the
  evaluator with its tail-call loop, the printer and reader, and the symbol table;
- the **frame manager** of the XIM protocol library: one interpreter of frame templates that sizes, writes and reads
  every protocol message;
- the **table input method**: packed key codes, binary search over columns, a wildcard matcher, and candidate pages;
- the **server state**: deferred key events, the registry of input contexts, and the mode bits of each input method;
- the **character tables**: dense numbers for multi-byte characters and the two-byte character sets;
- the **stable merge sort** its tables are sorted with.

Code that changes memory step by step is a class or a method over arrays here, and is proved equal to a function of the
state before it; the theorems are about those functions, over every input, every run or every reachable state. Pure code
is functions and lemmas. `Sealed.Asked` keeps long definitions closed in proofs that only pass them on.

| files | source |
|---|---|
| SiodCells, StopAndCopy, MarkSweep, Evaluator, Rules, RulesDecide, Environments, SexpText, SexpRoundTrip, SexpForms, SymbolTable | src/lib/siod |
| FrameTemplate, FrameCursor, FrameTokens, FrameWalk, FrameSetup, FrameRequests, FrameEncode, FrameBlank, FrameLoopEnd, FrameElement, FrameRead, FrameDecode, FrameLengths, FrameRoundTrip, FrameWire, FrameTail, WireBytes, WireExample, XimFrames, XimCodec, XimLengths, EventQueue | src/lib/IMdkit |
| Keymap, KeyRows, TableSearch, Paging, PageTurns, CharCode, CharOrder | src/Cinput |
| Wildcard, StableSort | src/lib/xcintool |
| LinkedStore, IcRegistry, InputModes, ModeKeys | src/xim.c, src/xim_IC.c |
| ByteRanges, Charset, CharsetText, CharsetTables | src/lib/charset |
| Strings, Division, Sealed | shared definitions |

`dafny verify dfyconfig.toml` checks the whole project.

## Model

| member | source | states |
|---|---|---|
| StopAndCopy.CollectPreservesGraph | src/lib/siod/slib.c:1205-1218 | after a collection every walk of car and cdr from every register meets a cell with the same contents as before, and two walks meet in one cell exactly if they did before: sharing and cycles are kept |
| StopAndCopy.CopiedByKind | src/lib/siod/slib.c:1151-1203 | in a copied pair or closure both words are redirected, in a symbol the value and not the name, in a number or built-in no word |
| StopAndCopy.LeftByKind | src/lib/siod/slib.c:1104-1218 | a cell that no register, pair, closure or value of a symbol names is not copied |
| StopAndCopy.CopiedExactly | src/lib/siod/slib.c:1104-1218 | the cells copied are exactly those that can be reached from the registers |
| StopAndCopy.CopiedOnce | src/lib/siod/slib.c:1104-1138 | no cell is copied twice: its forwarding mark is found |
| StopAndCopy.ImageHeapOk | src/lib/siod/slib.c:1205-1218 | a collection leaves a heap the next one can start from: every pointer is into the new space |
| StopAndCopy.Heap.GcRelocate | src/lib/siod/slib.c:1104-1138 | in place, NIL stays, a forwarded cell gives its copy, any other is copied to the end of the new space and forwarded |
| StopAndCopy.Heap.GetNewspace | src/lib/siod/slib.c:1140-1149 | the other half space, empty |
| StopAndCopy.Heap.ScanRegistersInPlace | src/lib/siod/slib.c:957-966 | every protected register is relocated, in order |
| StopAndCopy.Heap.ScanCellInPlace | src/lib/siod/slib.c:1151-1203 | the pointer words of one copied cell, as its type code says, are relocated |
| StopAndCopy.Heap.ScanNewspaceInPlace | src/lib/siod/slib.c:1151-1203 | the scan goes on until it meets the cells still being added |
| StopAndCopy.Heap.GcStopAndCopy | src/lib/siod/slib.c:1205-1218 | the collector in place: from a valid heap it cannot run out of the new space, and leaves the isomorphic image of the old one in the other half |
| MarkSweep.MarkExact | src/lib/siod/slib.c:1303-1378 | the cells marked are exactly those reachable from the root words, on any graph, cyclic ones included |
| MarkSweep.MarkedByKind | src/lib/siod/slib.c:1303-1337 | with a pair or closure both words are marked, with a symbol its value |
| MarkSweep.FreedByKind | src/lib/siod/slib.c:1303-1420 | a cell that no root, pair, closure or value of a symbol names is freed, whatever the words of numbers and built-ins say |
| MarkSweep.RootsExact | src/lib/siod/slib.c:1339-1378 | the roots are the registers and those words of the stack and the machine registers that are addresses of cells not free |
| MarkSweep.FreedExact | src/lib/siod/slib.c:1379-1420 | the free list built by the sweep holds every unmarked cell once and no other |
| MarkSweep.CollectedExactly | src/lib/siod/slib.c:1269-1287 | a collection leaves every live cell as it was, without a mark, and frees exactly the others |
| MarkSweep.CollectedOk | src/lib/siod/slib.c:1269-1287 | after a collection the pool is well-formed again: every cell is in use or on the free list, never both |
| MarkSweep.Heap.GcMark | src/lib/siod/slib.c:1303-1337 | the marker, with its jumps back for the last pointer of a cell, sets the marks of the recursive definition and stops on every graph |
| MarkSweep.Heap.MarkProtectedRegisters | src/lib/siod/slib.c:1339-1347 | everything reachable from the registers is marked |
| MarkSweep.Heap.MarkLocationsArray | src/lib/siod/slib.c:1349-1378 | of the words of a memory area those that are addresses of cells in use are roots, the others are passed over |
| MarkSweep.Heap.GcSweep | src/lib/siod/slib.c:1379-1420 | marks are cleared, unmarked cells become free cells chained to one list |
| MarkSweep.Heap.GcMarkAndSweep | src/lib/siod/slib.c:1269-1287 | the collector in place: afterwards the free list is exactly the unreachable cells |
| MarkSweep.Heap.GcForNewcell | src/lib/siod/slib.c:1246-1267 | live cells are untouched, and if the free list is still empty then every cell is live |
| MarkSweep.Heap.NewCell | src/lib/siod/siodp.h:51-63 | a cell handed out was not live, holds the contents asked for, and every live cell is untouched; allocation fails only when every cell is live |
| Evaluator.EvalMore | src/lib/siod/slib.c:1541-1689 | more fuel never changes a result, so every form has one meaning |
| RulesDecide.RulesDecide | src/lib/siod/slib.c:1541-1885 | a form has a value, with some store behind it, if and only if the rules derive it: one rule for constants, variables, built-ins of each arity, quote, lambda, set!, define, if, begin, or, and, let, calls and macros, on the cells of the form |
| RulesDecide.RulesAgree | src/lib/siod/slib.c:1541-1885 | two derivations for a form give one value and one store |
| RulesDecide.FormalIs | src/lib/siod/slib.c:1514-1531 | the first formal of a name has the actual at its place |
| RulesDecide.DottedIs | src/lib/siod/slib.c:1514-1531 | the symbol behind the last formal has the actuals that are left |
| RulesDecide.FrameDecides | src/lib/siod/slib.c:1514-1531 | the first frame that binds a name decides what it is |
| Evaluator.SetVarShared | src/lib/siod/slib.c:1762-1767 | an assignment is seen through every environment that finds the same binding, unless the conses that lead there are those of the value |
| Evaluator.SetVarHolds | src/lib/siod/slib.c:1762-1767 | after set! the variable reads the new value if and only if its binding is not the tail of a dotted formals list (or read that value before), for values whose conses are not on the way to the binding |
| Evaluator.SetVarLost | src/lib/siod/slib.c:1514-1531 | (lambda (a . x) ..) called with 10 and 20: set! of x has no effect |
| Evaluator.SetVarCrossed | src/lib/siod/slib.c:1762-1767 | a frame whose formals are the conses of an outer frame's values: set! of the outer variable to its own name makes it read the inner value |
| Environments.SetVarKeepsApart | src/lib/siod/slib.c:1762-1767 | of environments in which no cons that leads to a variable holds a value: set! through any of them keeps them so, and every variable of all of them bound where it was |
| Environments.SetChangesOne | src/lib/siod/slib.c:1762-1767 | in them set! of a variable changes the variables that share its binding, in whatever environment, and no other |
| Environments.CallKeepsApart | src/lib/siod/slib.c:1509-1512 | the environment made for a call joins them, when the conses of its actuals are its own and those of its formals hold no values; formals that take all the actuals need nothing |
| Environments.CellNotInSpine | src/lib/siod/slib.c:1514-1531 | in them SetVarHolds and SetVarShared hold of every variable |
| Evaluator.Interpreter.EnvLookup | src/lib/siod/slib.c:1514-1531 | the loops over frames and formals find the binding the definition finds, or its error |
| Evaluator.Interpreter.SetVarInPlace | src/lib/siod/slib.c:1762-1767 | the binding found, or the symbol's global value, is changed and nothing else |
| Evaluator.Interpreter.Leval | src/lib/siod/slib.c:1541-1689 | the loop that overwrites form and environment for tail calls gives the result, the store and the error of the plain recursive meaning |
| Evaluator.Interpreter.Call | src/lib/siod/slib.c:1560-1689 | what the operator's type makes of a call: built-ins, closures and special forms, wrong types and unbound variables as errors |
| Evaluator.Interpreter.LevalArgs | src/lib/siod/slib.c:1494-1507 | the list built by the loop is that of the arguments' values |
| Evaluator.Interpreter.LevalProgn | src/lib/siod/slib.c:1810-1817 | all forms are evaluated, and the last one is jumped to |
| Evaluator.Interpreter.LevalOr | src/lib/siod/slib.c:1819-1829 | the first value that is not nil, the last form by a jump |
| Evaluator.Interpreter.LevalAnd | src/lib/siod/slib.c:1831-1841 | nil at the first nil, the last form by a jump; true of nothing |
| Evaluator.Interpreter.LevalIf | src/lib/siod/slib.c:1795-1801 | one branch and only that one, by a jump |
| Evaluator.Interpreter.LevalLet | src/lib/siod/slib.c:1872-1878 | the values are bound in a new frame and the body is jumped to |
| Evaluator.Interpreter.LevalSetq | src/lib/siod/slib.c:1769-1770 | the value is computed before the binding is looked for |
| Evaluator.Interpreter.LevalDefine | src/lib/siod/slib.c:1781-1793 | a binding there is changes; otherwise the first frame, or the global value, gets it |
| SexpText.Printer.Lprin1g | src/lib/siod/slib.c:1965-2026 | the printer, a loop along the list, appends the text of the recursive definition |
| SexpText.Reader.Lreadr | src/lib/siod/slib.c:2098-2141 | one object is read, the position moves behind it; errors at the end of the text and at a stray parenthesis |
| SexpText.Reader.Lreadparen | src/lib/siod/slib.c:2143-2155 | a list is read to its parenthesis, dotted tails included |
| SexpRoundTrip.PrintReadRoundTrip | src/lib/siod/slib.c:1965-2181 | reading the printed text of an object gives the object back and uses the text up |
| SexpRoundTrip.SymbolSurvives | src/lib/siod/slib.c:2157-2181 | a symbol is read back from its name if and only if the name is short enough, has no blank or delimiter, does not start with # and is not a number |
| SexpForms.ListShown | src/lib/siod/slib.c:1965-2026 | a list is its elements in parentheses with single spaces between them, a tail other than nil behind a dot |
| SexpForms.DigitAt | src/lib/siod/slib.c:1965-2026 | each digit of a printed number is that of its power of ten, and the first is not 0 |
| SexpForms.QuotedReads | src/lib/siod/slib.c:2098-2125 | an object behind a quote, a backquote or one of the commas reads as the list made of it |
| SexpForms.BlankReads | src/lib/siod/slib.c:2098-2141 | spaces and comments in front change nothing |
| SexpForms.NotObjects | src/lib/siod/slib.c:2098-2155 | the errors for no object, a closing parenthesis and a list without one |
| SexpForms.TokenEnds | src/lib/siod/slib.c:2126-2141 | the characters that end a token, which of them are used up, and that no other does |
| SexpForms.NumeralIsNumber | src/lib/siod/slib.c:2157-2181 | a token of sign, digits, point and digits, and exponent is a number |
| SexpForms.NumberIsNumeral | src/lib/siod/slib.c:2157-2181 | and no other token |
| SymbolTable.Obarray.GenIntern | src/lib/siod/slib.c:891-917 | the search of one bucket gives the cell a search of all names would give: the one cell of the name, made only when there is none, with every other cell and bucket as before |
| SymbolTable.NamesAreCells | src/lib/siod/slib.c:891-917 | hence two lookups give the same cell if and only if the names are equal, whatever was interned between them |
| FrameTemplate.DecrementUndoesIncrement | src/lib/IMdkit/FrameMgr.c:2297-2370 | stepping back undoes stepping on at every item, repeated and nested groups included |
| FrameTemplate.IncrementUndoesDecrement | src/lib/IMdkit/FrameMgr.c:2297-2370 | and stepping on undoes stepping back |
| FrameTemplate.FrameResidueSound | src/lib/IMdkit/FrameMgr.c:2372-2464 | what the padding rules say of a length modulo 4 holds of every document of the template |
| XimFrames.ServerFramesWhole | src/lib/IMdkit/i18nUtil.c:136-157 | the size of every message of the server is divisible by 4, whatever is in it, so dividing it by 4 for the header drops nothing |
| XimLengths.HeaderTrue | src/lib/IMdkit/i18nUtil.c:136-157 | the 16-bit length in the header is that of the message if and only if the message is shorter than 262144 bytes |
| XimLengths.HeaderHolds | src/lib/IMdkit/i18nUtil.c:136-157 | it is so for every message but the trigger keys whose strings and lists are no longer than 16-bit numbers say |
| XimLengths.TooManyKeys | src/lib/IMdkit/i18nIMProto.c:306-324 | 21846 trigger keys, counted in 32 bits: a message of 262176 bytes whose header says 32 |
| FrameTokens.FrameTotalIs | src/lib/IMdkit/FrameMgr.c:2109-2202 | the total computed from the sizes and counts set is the length of the document, at any depth of frames in lists and lists in frames |
| FrameTokens.TokensFromSize | src/lib/IMdkit/FrameMgr.c:2372-2464 | the tokens of a frame take exactly the bytes the size computation counts |
| FrameWalk.InstNextIs | src/lib/IMdkit/FrameMgr.c:908-1057 | each call of the cursor reports the next token of the document, with its size, counter or padding, and leaves the tokens after it, at any nesting |
| FrameSetup.InstSetSizeIs | src/lib/IMdkit/FrameMgr.c:1304-1361 | a size goes to the first place of the frame that lacks one, in document order, and to no other |
| FrameRequests.SetupFills | src/lib/IMdkit/FrameMgr.c:712-726 | the setup calls in template order leave every size and count right and the cursor at the start, for frames whose inner frames are flat |
| FrameEncode.NumRoundTrip | src/lib/IMdkit/FrameMgr.c:300-380 | a number written in either byte order is read back modulo its width |
| WireBytes.ByteAt | src/lib/IMdkit/FrameMgr.c:40-50 | byte i of a number of w bytes is the number divided by 256 to the power w-1-i, modulo 256, for a big-endian client, and to the power i for the other kind |
| WireBytes.NumIsValue | src/lib/IMdkit/FrameMgr.c:40-50 | the number that bytes are read as, the most significant byte first or last |
| WireBytes.PutNumber | src/lib/IMdkit/FrameMgr.c:271-486 | after a call of PutToken with a number these bytes stand in front of the new end of the buffer |
| WireBytes.WrittenByte | src/lib/IMdkit/FrameMgr.c:271-486 | so does every number, counters too, at its place in the buffer that WriteFrame leaves |
| WireBytes.GotNumber | src/lib/IMdkit/FrameMgr.c:488-710 | and a number GetToken gets is the one its bytes stand for in the client's order |
| WireExample.ReplyBytes | src/lib/IMdkit/i18nIMProto.c:386-396 | the reply to an extension query with one extension, byte for byte in both orders: counter, numbers, string and padding |
| FrameEncode.FrameMgr.PutToken | src/lib/IMdkit/FrameMgr.c:271-486 | one call writes the counters and paddings that are due and the datum, at its place and in the byte order, and leaves the rest of the frame |
| FrameEncode.FrameMgr.WriteFrame | src/lib/IMdkit/FrameMgr.c:271-486 | a frame set up and written: the buffer is the bytes of its tokens up to the last datum, all else untouched, and the total is that and what follows the last datum |
| FrameEncode.WholeFrame | src/lib/IMdkit/FrameMgr.c:271-486 | the computed total is the bytes written and trailing padding if and only if no counter comes after the last datum |
| FrameBlank.ClearedHolds | src/lib/IMdkit/i18nPtHdr.c:505-540 | in a cleared buffer every reply holds all its tokens, empty last lists included |
| FrameBlank.WriteReply | src/lib/IMdkit/i18nPtHdr.c:505-540 | a reply sized, cleared and written is of the computed length and whole |
| FrameTail.EndsInList | src/lib/IMdkit/FrameMgr.c:271-486 | a frame with nothing but padding behind its last list ends in data if and only if that list is not empty |
| XimCodec.EmptyLastList | src/lib/IMdkit/i18nIMProto.c:185-689 | so for each message of the server: it ends in data if and only if the list it ends with, if any, is not empty |
| XimCodec.NoExtensions | src/lib/IMdkit/i18nIMProto.c:386-396 | the reply to an extension query with an empty list: of its 4 bytes 2 are written |
| XimCodec.MessagesCode | src/lib/IMdkit/i18nIMProto.c:185-689 | every message of the protocol is in the scope of the writer's and the reader's theorems, and has its string lengths where the reader looks for them |
| FrameDecode.FrameReader.GetToken | src/lib/IMdkit/FrameMgr.c:488-710 | one call gives the next datum of the document and leaves the reader before the one after it; counters open their lists, numbers give the next byte string its size |
| FrameDecode.FrameReader.IsIterLoopEnd | src/lib/IMdkit/FrameMgr.c:816-862 | the end test answers yes exactly when no element of the list is left, and then the reader is past the list and its padding |
| FrameWire.Receive | src/lib/IMdkit/FrameMgr.c:488-862 | from the template, the bytes and the place of the string lengths alone the reader gets every number and string, and goes round each list as often as it has elements, of any document the bytes hold |
| FrameWire.BytesDetermine | src/lib/IMdkit/FrameMgr.c:488-862 | two documents in the same bytes carry the same data and lists of the same lengths |
| FrameRoundTrip.ReadFrame | src/lib/IMdkit/i18nPtHdr.c:158-183 | the reader as its callers use it: the length of a string is the number got before it, set as its size, and the end test alone ends a list; the document is known to the proof only |
| FrameWire.WriteAndRead | src/lib/IMdkit/FrameMgr.c:271-862 | a document written leaves bytes that carry it, and the reader of these bytes gets it back: every number, every string, every list length |
| FrameRoundTrip.EmptyListNoEnd | src/lib/IMdkit/FrameMgr.c:816-862 | right after the counter of a list the end test says no, which is right if and only if the list is not empty |
| EventQueue.Xi18nClient.AddQueue | src/lib/IMdkit/i18nPtHdr.c:1567-1590 | the event goes to the end of the linked list |
| EventQueue.Xi18nClient.ProcessQueue | src/lib/IMdkit/i18nPtHdr.c:1592-1625 | events are handled from the front until one is sent back or none is left |
| EventQueue.Xi18nClient.MessageHandler | src/lib/IMdkit/i18nPtHdr.c:1717-1743 | a forwarded event waits while a sync reply is owed and is handled otherwise; a reply lets the waiting ones go |
| EventQueue.EventsInOrder | src/lib/IMdkit/i18nPtHdr.c:1567-1743 | in every run events are handled in the order they came, none lost or twice, and none waits unless a reply is owed |
| EventQueue.RepliesDrain | src/lib/IMdkit/i18nPtHdr.c:1592-1625 | as many replies as there are events waiting leave none waiting |
| EventQueue.OneUnacknowledged | src/lib/IMdkit/i18nPtHdr.c:547-579 | at most one event is out at any time of a run if and only if no event goes back between a reply that answers another request while one is out and the next acknowledgement |
| EventQueue.StraySync | src/lib/IMdkit/i18nPtHdr.c:547-579 | two events, a reply to a request of the server's own between them: both are out at once |
| Keymap.KeyHasCode | src/Cinput/im_comm/keymap.c:141-155 | a key code gives its key and the key its code |
| KeyRows.DigitKeys | src/Cinput/im_comm/keymap.c:30-63 | the digit keys and the signs above them have the codes 1 to 10 |
| KeyRows.LetterKeys | src/Cinput/im_comm/keymap.c:64-118 | small and capital letters have the codes 11 to 36 |
| KeyRows.SignKeys | src/Cinput/im_comm/keymap.c:119-145 | the other signs and those above them have the codes 37 to 47 |
| KeyRows.NoOtherKeys | src/Cinput/im_comm/keymap.c:30-148 | nothing else is a key |
| Keymap.KeysToCodes | src/Cinput/im_comm/keymap.c:157-180 | the words of a keystroke, five keys to a word, as many as the array holds; the rest of the array is untouched |
| Keymap.CodesToKeys | src/Cinput/im_comm/keymap.c:182-205 | the keys of the words up to the first blank, cut to the buffer and ended by NUL |
| Keymap.PackRoundTrip | src/Cinput/im_comm/keymap.c:157-205 | unpacking what was packed gives the keystroke without shifts, as much as words and buffer hold, up to the first key without a code |
| TableSearch.CmpIcvalue | src/Cinput/gen_inp/gen_inp.c:508-519 | the sign of the first difference, column by column |
| TableSearch.BsearchChar | src/Cinput/gen_inp/gen_inp.c:521-548 | the first entry with a code; if there is none -1, or where it belongs for a wildcard search |
| TableSearch.PackingKeepsOrder | src/Cinput/gen_inp/gen_inp.c:508-519 | comparing packed words is comparing keystrokes in key order |
| Wildcard.NextToken | src/lib/xcintool/strcmp_wild.c:31-64 | the next run of stars and marks, single mark or run of plain characters, cut to the buffer |
| Wildcard.StrcmpWild | src/lib/xcintool/strcmp_wild.c:66-112 | the loops compute the greedy match of the token list |
| Wildcard.MatchIsSound | src/lib/xcintool/strcmp_wild.c:66-112 | a string accepted is one the tokens stand for |
| Wildcard.GreedyIsExact | src/lib/xcintool/strcmp_wild.c:66-112 | the matcher accepts all strings a pattern stands for if and only if it has no star, or from the first one on each literal is followed by marks only and then another star |
| Wildcard.GreedyMisses | src/lib/xcintool/strcmp_wild.c:66-112 | "*ab" stands for "abab" and is not accepted |
| Wildcard.TokensAreFaithful | src/lib/xcintool/strcmp_wild.c:31-64 | the tokens mean what the pattern says if and only if no star is followed at once by a mark and no plain run is longer than the buffer |
| Wildcard.MarkSwallowed | src/lib/xcintool/strcmp_wild.c:31-64 | "*?" is read as "*" and accepts the empty string |
| Paging.Selector.MatchKeystroke | src/Cinput/gen_inp/gen_inp.c:836-852 | success exactly if the table has a wanted entry; then the first page is shown, otherwise there is none |
| Paging.Selector.FillPage | src/Cinput/gen_inp/gen_inp.c:1017-1167 | a page forth, back or to the start, refused exactly where there is none, and the page shown is right after it |
| Paging.Selector.NextPage | src/Cinput/gen_inp/gen_inp.c:1169-1245 | a page key turns, wraps or is refused as the page state says |
| Paging.Selector.Browse | src/Cinput/gen_inp/gen_inp.c:1169-1245 | after any keystroke and any row of page keys the page shown is the one they add up to |
| PageTurns.KeysOnwards | src/Cinput/gen_inp/gen_inp.c:1169-1245 | with P pages and a countable list, j presses of the keys onwards show page j modulo P of a plain keystroke and page min(j, P - 1) of a wildcard |
| PageTurns.BackTurns | src/Cinput/gen_inp/gen_inp.c:1169-1245 | the key back shows the page before, and changes nothing on the first |
| PageTurns.TurnsUndo | src/Cinput/gen_inp/gen_inp.c:1169-1245 | a key back undoes one onwards, unless that started over, and the other way round |
| PageTurns.OnePageKeys | src/Cinput/gen_inp/gen_inp.c:1169-1245 | on a list of one page the blank chooses the first candidate, the other page keys do nothing |
| Paging.Selector.SuggestKeystroke | src/Cinput/gen_inp/gen_inp.c:856-891 | the keystroke of the entry remembered for a candidate's place |
| Paging.PagesAreWindows | src/Cinput/gen_inp/gen_inp.c:1017-1167 | every page ever shown is a whole window of the ordered list of all matching entries, though the code walks the table from page to page both ways; its state is true while the count fits a byte |
| Paging.ByteHoldsCount | src/Cinput/gen_inp/gen_inp.c:715-834 | the page state is true on every reachable page if and only if there are at most 255 candidates |
| Paging.CountLost | src/Cinput/gen_inp/gen_inp.c:715-834 | with 256 candidates the count is 0, the first page says there are more, and turning it is refused |
| Paging.SuggestionsRight | src/Cinput/gen_inp/gen_inp.c:553-600 | every candidate of a wildcard page is suggested its own keystroke if and only if the page was not turned back to or its keystrokes read the same backwards: always on a page of one, never when the first and last keystrokes of a page turned back to differ |
| Paging.SuggestionWrong | src/Cinput/gen_inp/gen_inp.c:1017-1167 | three entries, two to a page, pattern "?": after a turn forth and back the first candidate is suggested the second one's key |
| IcRegistry.Registry.NewIMC | src/xim_IC.c:53-92 | a new context linked in front with links both ways, or the one context shared by all |
| IcRegistry.Registry.DeleteIMC | src/xim_IC.c:94-115 | one context unlinked both ways, the others in their order, its record free for reuse |
| IcRegistry.Registry.NewIC | src/xim_IC.c:139-163 | a record in front of the list, reused or numbered anew, every other record untouched |
| IcRegistry.Registry.DeleteIC | src/xim_IC.c:165-204 | one context leaves the list, the others stay in order, and no focus pointer is left to it |
| IcRegistry.Registry.IcFind | src/xim_IC.c:206-229 | a context in use with the id, and none if and only if there is none |
| IcRegistry.Registry.IcCreate | src/xim_IC.c:606-629 | a context of the client in front of the list, the focus as before |
| IcRegistry.Registry.IcDestroy | src/xim_IC.c:631-643 | one context with the id goes, if there is one, with the focus pointers to it, and nothing changes otherwise |
| IcRegistry.Registry.IcCleanAll | src/xim_IC.c:645-663 | the contexts whose connection is the one closed go, all others stay, and the result says whether any went; a focus pointer is dropped exactly when its context goes |
| IcRegistry.Registry.SweepStale | src/xim_IC.c:804-843 | the reference stays, and of the others those that do not share its window and have not been idle more than 600 seconds with a client window that is gone; the times of the reference and of the idle ones become now |
| IcRegistry.Registry.CheckIcExist | src/xim_IC.c:790-844 | that walk for the context with the id, if there is one and the last walk was more than 300 seconds ago; otherwise nothing changes |
| IcRegistry.Registry.FocusIn | src/xim.c:483-545 | a context not yet marked in focus is marked, becomes the one in focus and its input method context belongs to it; one that is marked is left alone, and is the one in focus only if it was |
| IcRegistry.Registry.FocusOut | src/xim.c:547-577 | a context marked in focus loses the mark and is remembered; nothing changes for one that is not |
| IcRegistry.StayingExactly | src/xim_IC.c:645-663 | exactly the contexts without a reason to go stay |
| IcRegistry.StayingInOrder | src/xim_IC.c:645-663 | and they keep their order |
| IcRegistry.IdsAreUnique | src/xim_IC.c:139-163 | all contexts have different ids if and only if no more than 65536 records were made |
| InputModes.FlagsAreBits | src/xim.c:483-577 | testing, setting and clearing the bits of a mode word is testing, setting and clearing flags |
| InputModes.Server.ChangeIM | src/xim.c:283-348 | the module is bound, or English chosen, with mode bits, default method and focus mode following; refused without a change when the slot cannot be loaded |
| InputModes.Server.CircularChangeIM | src/xim.c:350-364 | slot after slot in the direction, until a change succeeds |
| InputModes.Server.IcCreate | src/xim_IC.c:606-629 | a new context starts in English with no module, or shares the one context |
| InputModes.Server.IcDelete | src/xim_IC.c:165-204 | a context goes, and no input method context changes |
| InputModes.DestroyedSound | src/xim_IC.c:631-663 | every other context keeps its place, its flags and its modes, and the modes stay sound |
| InputModes.Server.SetFocusHandler | src/xim.c:483-545 | the focus bits return, and in the focus mode the method and width in force are brought along |
| InputModes.Server.UnsetFocusHandler | src/xim.c:547-577 | the focus bits go and the method stays |
| InputModes.Server.TriggerHandler | src/xim.c:579-645 | a trigger connects the context and its key changes the method or the width; a context that cannot follow is disconnected again |
| InputModes.Server.ForwardKeysHandler | src/xim.c:651-784 | the function keys change method, width and focus mode; a context left in English and narrow is disconnected |
| InputModes.CircleLands | src/xim.c:350-364 | a circular change ends on the first slot in its direction that can be changed to, English among them, within one turn |
| ModeKeys.NumberKey | src/xim.c:651-784 | the key of a method: the method of its slot with its focus, the widths as they were; nothing if the slot holds none |
| ModeKeys.ToggleKey | src/xim.c:651-784 | the toggle key: off with the number kept, or on with the method of that number |
| ModeKeys.ToggleTwice | src/xim.c:651-784 | twice brings the method back |
| ModeKeys.WidthKey | src/xim.c:651-784 | the width key flips the width and leaves the method |
| ModeKeys.FocusKey | src/xim.c:651-784 | the focus key: focus mode on with the method of the context or its width in force, or off with nothing |
| ModeKeys.CircleKey | src/xim.c:350-364 | a circular key turns to the first slot behind the present one in its direction that can be changed to, slots counted round with English last |
| ModeKeys.KeyConnection | src/xim.c:651-784 | a function key that leaves neither method nor width disconnects, no other does |
| ModeKeys.TriggerToggle | src/xim.c:579-645 | the toggle key as trigger: in focus, connected exactly if its method can be had, which is then on |
| ModeKeys.TriggerNumber | src/xim.c:579-645 | the same for the key of a method |
| ModeKeys.TriggerOthers | src/xim.c:579-645 | the width key as trigger sets the width; a phrase changes no mode and disconnects |
| ModeKeys.FirstFocusBrings | src/xim.c:483-545 | the first focus of a new context brings the method and the width in force along |
| ModeKeys.FocusAndBack | src/xim.c:483-577 | the focus bits go with the focus and return with it, method and widths untouched |
| ModeKeys.NewContext | src/xim_IC.c:606-629 | a new context in English and narrow, with the number of the method to use, or sharing the one IM context |
| InputModes.RunsAreSound | src/xim.c:115-784 | in every run of requests, contexts created and destroyed among them: a module is bound if and only if the bits say so and it is the slot's own, focus bits never outlive the mode they belong to, and a shared context agrees with the defaults |
| CharCode.CharTable.Init | src/Cinput/im_comm/charcode.c:46-76 | bases and totals of the mixed radix are built from the byte ranges |
| CharCode.CharTable.MatchEncoding | src/Cinput/im_comm/charcode.c:102-155 | the first encoding that takes the character's bytes |
| CharCode.CharTable.ToIdx | src/Cinput/im_comm/charcode.c:158-195 | the dense number of a character, -1 outside the encodings |
| CharCode.CharTable.ToChar | src/Cinput/im_comm/charcode.c:197-226 | the character of a number, written only when the number is in range and the buffer is long enough, and untouched otherwise |
| CharCode.CharOfNumber | src/Cinput/im_comm/charcode.c:158-226 | a character's number is in range and gives the character back |
| CharCode.NumberOfChar | src/Cinput/im_comm/charcode.c:158-226 | a number's character has that number if and only if no earlier encoding takes its first bytes |
| CharCode.DenseNumbering | src/Cinput/im_comm/charcode.c:158-226 | numbers and characters are in one-to-one correspondence if and only if no encoding clashes with a later one |
| CharOrder.DigitsCount | src/Cinput/im_comm/charcode.c:46-76 | the bytes of a plane count from 0, by one within a range and from its end to the next |
| CharOrder.LastByteDecides | src/Cinput/im_comm/charcode.c:158-195 | characters of an encoding are in the order of their last bytes that differ |
| CharOrder.EncodingsInOrder | src/Cinput/im_comm/charcode.c:158-195 | all of an encoding come before those of the next |
| CharOrder.KnownNumbers | src/Cinput/im_comm/charcode.c:158-195 | in the UTF-8 table U+4E00 has number 619 and U+00E9 number 45467 |
| CharCode.Ambiguous | src/Cinput/im_comm/charcode.c:102-195 | of any two encodings that clash, a number that does not come back |
| CharCode.OneOrTwoAmbiguous | src/Cinput/im_comm/charcode.c:102-195 | one byte from 0xa1 to 0xfe, or two of them: the encodings clash, and a number does not come back |
| CharCode.Utf8Dense | cin/utf-8/sys.cin:110-128 | the three encodings of the UTF-8 table do not clash: their 94848 numbers are exact |
| Charset.CodeToBytes | src/lib/charset/charset.c:93-200 | a code comes back from its bytes if and only if its place in the row is one the decoder looks for |
| Charset.BytesToCode | src/lib/charset/charset.c:93-200 | bytes come back from their code if and only if their row has that place |
| Charset.OneToOne | src/lib/charset/charset.c:93-200 | codes and bytes correspond one to one if and only if every row is as long as the table its second bytes are looked up in |
| Charset.OneTable | src/lib/charset/charset.c:151-200 | so it is when all segments have one table |
| Charset.Big5Collides | src/lib/charset/charset.c:150-200 | for the segments that src/lib/charset/big5.c hands to these conversions it fails: 0xa3fe and 0xa47d have the same code |
| Charset.Big5Known | src/lib/charset/charset.c:93-200 | 0xa140 has code 1 and 0xa47d code 471, both ways |
| CharsetText.TextRoundTrip | src/lib/charset/charset.c:93-200 | a text of codes comes back from its bytes if and only if every code in it does and nothing follows a NUL |
| CharsetTables.Init | src/lib/charset/charset.c:202-226 | starts and counts of segments, shared tables filled once |
| CharsetTables.Bsearch | src/lib/charset/charset.c:37-91 | with comparators that are monotone along the table, the entry that compares equal is found if there is one |
| CharsetTables.EncodeOne | src/lib/charset/charset.c:93-148 | two nested searches give the bytes of a code |
| CharsetTables.DecodeOne | src/lib/charset/charset.c:150-200 | and the code of two bytes, second bytes looked up as the code does |
| CharsetTables.Lnr2Mbs | src/lib/charset/charset.c:93-148 | the conversion loop, its stop at a code that is none and its negative count |
| CharsetTables.Mbs2Lnr | src/lib/charset/charset.c:150-200 | the loop back, ASCII flagged, with the same conventions |
| StableSort.MergeSortStable | src/lib/xcintool/stable_sort.c:92-126 | for every total preorder the result is sorted, and elements that compare equal keep their order |
| StableSort.StablePermutes | src/lib/xcintool/stable_sort.c:118-126 | a stable sort is a permutation |
| StableSort.StableUnique | src/lib/xcintool/stable_sort.c:118-126 | and there is only one |
| StableSort.Merge | src/lib/xcintool/stable_sort.c:64-90 | two neighbouring runs merged through the buffer, the rest of the array untouched |
| StableSort.Separate | src/lib/xcintool/stable_sort.c:92-116 | a part of the array sorted by halves, the rest untouched |
| StableSort.MergeSort | src/lib/xcintool/stable_sort.c:118-126 | the array in place becomes its stably sorted permutation |

## Findings

Properties that do not hold of the code as it is. Each has an input and the exact condition under which the
property holds, for all inputs.

| property | input that fails | holds if and only if |
|---|---|---|
| at most one event sent back is unacknowledged | EventQueue.StraySync: the reply to a synchronising request of the server's own comes while an event is out and clears `sync` | EventQueue.OneUnacknowledged: no event goes back between such a reply and the next acknowledgement (`Calm`) |
| a message is written in full | XimCodec.NoExtensions: QUERY_EXTENSION_REPLY with no extension, 2 bytes of 4 | XimCodec.EmptyLastList: the list at its end, if it has one, is not empty; FrameBlank.ClearedHolds shows why it does no harm |
| the header of a message says its length | XimLengths.TooManyKeys: 21846 trigger keys | XimLengths.HeaderTrue: the message is shorter than 262144 bytes |
| the end test of a list says whether it is over | FrameRoundTrip.EmptyListNoEnd: any list, right after its counter | the list is not empty |
| the page state says whether there are more candidates | Paging.CountLost: 256 candidates count as 0 | Paging.ByteHoldsCount: at most 255 candidates |
| a candidate is suggested its own keystroke | Paging.SuggestionWrong: pattern "?", one page forth and one back | Paging.SuggestionsRight: the page was not turned back to, or its keystrokes read the same backwards |
| after set! a variable has the new value | Evaluator.SetVarLost: a dotted formal; Evaluator.SetVarCrossed: a frame whose formals are another's values | Evaluator.SetVarHolds: the binding is not the dotted tail of its formals, when its cons is not on the way to it |
| a context given the focus is the one in focus | the focus to one context, to another, and to the first again with no unset between: the first is still marked and left alone | IcRegistry.Registry.FocusIn: it is not marked, or is the one in focus already |
| context ids are unique | the 65537th record | IcRegistry.IdsAreUnique: at most 65536 records |
| the tokens of a pattern mean the pattern | Wildcard.MarkSwallowed: "*?" and the empty string | Wildcard.TokensAreFaithful: no star directly before a mark, no plain run that fills the buffer |
| the matcher accepts what the tokens stand for | Wildcard.GreedyMisses: "*ab" and "abab" | Wildcard.GreedyIsExact: taking the first occurrence is safe in the pattern |
| a symbol is read back from its name | the name "12" | SexpRoundTrip.SymbolSurvives: the name can stand as a token |
| numbers and characters correspond | CharCode.OneOrTwoAmbiguous: a one-byte encoding before a two-byte one with the same first bytes; CharCode.Ambiguous: any two that clash | CharCode.DenseNumbering: no encoding takes the first bytes of a later one |
| linear codes and bytes correspond | Charset.Big5Collides: 0xa3fe and 0xa47d both have code 471 | Charset.OneToOne: every row is as long as the table its second bytes are looked up in |

In the last one, encoder and decoder look second bytes up in the table of the first segment for every segment, while the
length of a row is the segment's own.

## Left out

Contracts that promise less than one might expect:

- FrameWire.Receive: for documents with no empty list, because the reader's end test fails on empty ones (FrameRoundTrip.EmptyListNoEnd), with counters and lengths that can hold their values; inner frames outside a list must end in a datum and not follow padding, which all frames of the protocol do.
- FrameWire.WriteAndRead: same condition.
- FrameRoundTrip.ReadFrame: same condition.
- FrameTokens.FrameTotalIs: not for a list directly inside a list, with no frame between; the protocol has none.
- FrameRequests.SetupFills: for frames whose inner frames are flat, as all of the protocol are.
- FrameEncode.FrameMgr.WriteFrame: for frames whose inner frames are flat, as all of the protocol are; sizes, tokens and the cursor are proved for any nesting.
- XimCodec.MessagesCode: not the connection set-up and the frames of single attribute values (XimFrames says which); xpcs_fr has no end record.
- Evaluator.SetVarHolds: the cons that holds the value must not be among those that lead to it. set! and calls keep it so (Environments), but not every program does: the-environment hands out the conses of a frame, which may then be used as formals (Evaluator.SetVarCrossed).
- Evaluator.SetVarShared: same condition, for the other environment.
- Environments.CallKeepsApart: asks for it of the lists a call is given; that a list of arguments just evaluated is new is not shown.
- Environments.SetVarKeepsApart: set! only; define can add to a frame that other lists run through.
- RulesDecide.RulesDecide: about values; which forms end in an error is the recursive definition's, which the loop is proved equal to.
- Evaluator.Interpreter.Leval: counts fuel, one unit for each nested or repeated evaluation, so it says nothing about a form whose evaluation never ends; arguments are evaluated in one order, which C leaves open.
- SexpRoundTrip.PrintReadRoundTrip: for nil, conses, symbols that can stand as tokens and whole numbers up to 2^53 in size; the text of other numbers is kept as it is read.
- MarkSweep.Heap.GcForNewcell: one heap; the source may allocate another when a collection frees few cells.
- MarkSweep.Heap.MarkLocationsArray: the words of the machine stack and the saved registers are given as a sequence.
- CharCode.CharTable.ToChar: not for numbers so far below zero that subtracting the totals wraps around a 32-bit integer.
- CharsetTables.Init: a table shared by segments is one copy for each of them here, filled alike.
- CharsetTables.Lnr2Mbs: for buffers with two bytes for each code; the source writes two bytes where it only made sure of one.
- CharsetTables.Mbs2Lnr: for buffers with room for a code for each byte; bytes behind the text are read as NUL.

Parts of the repository that are not modelled:

- Frame manager: FrameMgrSetTotalSize, which nothing calls; 64-bit fields; the host's own byte order, folded into one flag; chains and instances are values inside a FrameMgr object, so their allocation is not modelled.
- Frame manager: peeking at an inner frame at its end, which calls itself for ever in the source, is an outcome of its own here.
- Lisp: catch and throw, while, strings, arrays, floating-point values and user-type hooks; collections during an evaluation; more than one heap; immutable cells.
- Protocol: transport, selections and properties, extension negotiation beyond its frames, message bodies' meaning, failing allocation, and handlers that call back into the message loop.
- Table input method: phrase candidates, candidate history, automatic commit, keys other than page keys; the key map is filled on first use in the source and is constant here.
- Server: windows, drawing, what xim_init and xim_end of a module do, keystroke buffers, the request windows of a context.
- Character tables: overlapping ranges of one byte, conversion by iconv, tables with one range compared directly instead of searched (the result is the same).
- Pinyin and zhuyin packing, the phonetic input method, configuration files: these would add easier members only.
