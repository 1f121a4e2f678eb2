# Thread affinity and protocol names

This project is a Dafny model of two small parts of the Suricata engine. It proves properties of that model.

**CPU affinity (src/util-affinity.c).** The model covers:
- the global table of eight thread families (`thread_affinity`): receive, decode, stream, detect, verdict, reject, output and management;
- `GetAffinityTypeFromName`, the lookup of a family by name;
- `AffinitySetupInit`, which gives every family every configured CPU;
- `build_cpuset`, the parser of CPU lists (`"all"`, `"a-b"`, `"n"`);
- `AffinitySetupLoadFromConfig`, the loader of the `threading.cpu_affinity` configuration;
- `AffinityGetNextCPU`, the round-robin cursor that picks the CPU of a family's next thread.

The table is a class over an `array` of records, updated in place. Each loop of the source is a method with loop invariants, proved against a specification function. The properties are lemmas about those functions.

**Protocol names (src/util-proto-name.c).** The model covers:
- the 256-slot `known_proto` table, filled from the system's protocols file by `SCProtoNameInit`;
- the query `SCProtoNameValid`;
- the clean-up loop `SCProtoNameDeInit`.

The `strtok_r` tokenizer is modelled exactly and proved equal to an independent "fields between blanks and tabs" definition. The per-line rule is stated through those fields.

Module layout:
- `results.dfy`: Option/Result.
- `c_string.dfy`: `strtol`/`strtoul`/`atoi` in base 10, `index()`, decimal rendering.
- `cpu_list.dfy`: `build_cpuset`.
- `cpu_cursor.dfy`: the specification of `AffinityGetNextCPU` and its round-robin behaviour.
- `affinity.dfy`: the family table, the loader and the in-place class.
- `proto_name.dfy`: the protocol-name table.

C semantics the model keeps:
- `strtol`/`strtoul` skip leading white space, take an optional sign, then digits. With no digit they leave the end pointer at the start of the string.
- `atoi` is the value of that conversion.
- `index` finds the first occurrence.
- `fgets` keeps the line's `'\n'`.
- `strtok_r` splits on `" \t"` only, so a `'\n'` stays in the last token.
- Every `exit(EXIT_FAILURE)` of the loader is an `Err` carrying the diagnostic it logs.

Quirks the model states as lemmas:
- In a CPU list, `""`, `"-"` and `"0-"` all mean CPU 0, while `"5 "` is rejected.
- `"all"` ends the list, so later entries are never looked at.
- A family that is configured without a `cpu` child ends with an empty CPU set, although it started with every configured CPU.
- A protocols line `"foo \n"` stores `foo` at slot 0.
- An alias at the end of a line is stored with its `'\n'`.
- Slot 255 is never written, although `SCProtoNameValid` accepts 255.

## Model

| member | source | states |
|---|---|---|
| CString.StrToL | src/util-affinity.c:133-156 | the end lies within the string; an end of 0 comes with the value 0; any other end comes right after a digit that no digit follows |
| CString.StrToLNumber | src/util-affinity.c:133-156 | white space, an optional '+' or '-', decimal digits and then a non-digit convert to the digits' number, negated by '-', with the end right after the digits; leading zeros and '+' included |
| CString.StrToLNoNumber | src/util-affinity.c:155-156 | when no digit follows the white space and the sign, the value is 0 and the end is the start of the string |
| CString.Index | src/util-affinity.c:130-131 | `index` is None exactly when the character is absent, else the position of its first occurrence |
| CString.StrToLDecimal | src/util-affinity.c:155-162 | a number written in decimal followed by a non-digit converts back to itself and ends right after its digits |
| CString.AtoiDecimal | src/util-affinity.c:267 | `atoi` reads back a number written in decimal |
| CString.StrToLNoDigits | src/util-affinity.c:155-156 | text without any digit converts to 0 and consumes nothing |
| CString.StrToLNegated | src/util-proto-name.c:54 | a '-' before a decimal number negates it |
| CpuList.RangeSet | src/util-affinity.c:164-166 | the CPUs set by the `for (i = a; i <= b; i++)` loop are exactly those from a to b |
| CpuList.ParseEntry | src/util-affinity.c:126-163 | an accepted entry other than "all" gives 0 <= first <= last, and the stop flag is set exactly for "all" |
| CpuList.BuildCpuset | src/util-affinity.c:119-170 | the loop over the list, with its inner loop setting each CPU, computes the list specification: the set, or the first entry's error |
| CpuList.SetRange | src/util-affinity.c:164-166 | the inner loop adds exactly the CPUs from a to b to the set, and nothing when a > b |
| CpuList.SingleCpuEntry | src/util-affinity.c:153-162 | a decimal number n is the range n..n |
| CpuList.NotFullyConsumedIsError | src/util-affinity.c:153-161 | an entry without '-' is rejected as "not an integer" exactly when the conversion does not reach its end |
| CpuList.RangeEntry | src/util-affinity.c:130-152 | "a-b" with a <= b is the range a..b, and with a > b it is rejected as "bad order" |
| CpuList.RangeEntryErrors | src/util-affinity.c:130-152 | with a '-', a start not ending at the first '-' is "start invalid", an end not reaching the string's end is "end invalid", and a start above the end is "bad order" |
| CpuList.EmptyEntryIsCpuZero | src/util-affinity.c:153-162 | the empty entry is accepted as CPU 0 |
| CpuList.OpenRangeIsCpuZero | src/util-affinity.c:140-141 | "0-" is accepted as the range 0..0 |
| CpuList.LoneDashIsCpuZero | src/util-affinity.c:130-152 | "-" is accepted as the range 0..0 |
| CpuList.TrailingBlankIsError | src/util-affinity.c:155-161 | "5 " is rejected as not an integer |
| CpuList.CpusetMembers | src/util-affinity.c:122-169 | the list only adds CPUs, and a CPU is in the result exactly when it was there before or lies in the range of an entry read before the first "all" |
| CpuList.CpusetIsUnion | src/util-affinity.c:204-209 | the list is accepted independently of the starting set, and the result is the starting set plus what the list gives from the empty set |
| CpuList.AllStopsTheList | src/util-affinity.c:126-168 | whatever follows "all" is ignored, and "all" sets every online CPU |
| CpuCursor.NextCpu | src/util-affinity.c:287-292 | the chosen CPU is in the family's set, and it is below the online count when the cursor is |
| CpuCursor.FirstPick | src/util-affinity.c:287-292 | from cursor 0 the pick is the smallest member below the online count |
| CpuCursor.NextPick | src/util-affinity.c:287-295 | after picking a member, the next call picks the next larger member, or the smallest one after the largest |
| CpuCursor.Sweep | src/util-affinity.c:287-295 | after a member the picks go through the larger members in order and then start over from cursor 0 |
| CpuCursor.RoundRobin | src/util-affinity.c:281-300 | from cursor 0, the first picks are the members below the online count in increasing order, and then the picks repeat with that period |
| Affinity.AffinityTable.constructor | src/util-affinity.c:34-84 | the static table: eight families in order, receive and detect exclusive and the rest balanced, medium priority, cursor 0 |
| Affinity.AffinityTable.NamesDistinct | src/util-affinity.c:34-84 | in a valid table the eight family names are pairwise distinct, which the load lemmas require of their starting table |
| Affinity.AffinityTable.GetAffinityTypeFromName | src/util-affinity.c:90-98 | returns an entry of that name, is None exactly when no entry has the name, and returns the first such entry |
| Affinity.FindName | src/util-affinity.c:90-98 | on a table value: the first entry of that name, or None exactly when none has it |
| Affinity.AffinityTable.SetupInit | src/util-affinity.c:101-117 | every family's CPU set becomes exactly 0..ncpu-1, and nothing else changes |
| Affinity.InitTable | src/util-affinity.c:108-113 | the table value after initialisation: each entry with CPU set 0..ncpu-1 and the rest unchanged |
| Affinity.ParsePrio | src/util-affinity.c:237-250 | the default priority is accepted exactly for "low", "medium" or "high", gives the priority of that name, and is otherwise the `UnknownPrio` error ("unknown cpu_affinity prio") |
| Affinity.ParseMode | src/util-affinity.c:253-263 | the mode is accepted exactly for "exclusive" or "balanced", gives the mode of that name, and is otherwise the `UnknownMode` error ("unknown cpu_affinity node") |
| Affinity.ParseThreads | src/util-affinity.c:265-272 | the thread count is accepted exactly when `atoi` does not give 0, and is then that value |
| Affinity.NamesRoundTrip | src/util-affinity.c:239-258 | each priority name and each mode name parses back to itself |
| Affinity.ThreadsCount | src/util-affinity.c:265-272 | a non-zero decimal count reads back, while "0" and text without digits are errors |
| Affinity.LoadCpuList | src/util-affinity.c:204-214 | the CPU set is cleared and refilled from the "cpu" list when present, the priority sets are cleared, and a bad list is an error |
| Affinity.LoadPrio | src/util-affinity.c:215-251 | with no "prio" node the entry is kept; otherwise the "low", "medium" and "high" lists are added to the entry's priority sets, a bad list is that list's error, and a "default" name sets the priority as `ParsePrio` reads it, an unknown name being the `UnknownPrio` error ("unknown cpu_affinity prio") |
| Affinity.LoadMode | src/util-affinity.c:253-263 | with no "mode" child the entry is kept; otherwise the mode becomes what `ParseMode` reads, "exclusive" or "balanced", and any other name is the `UnknownMode` error ("unknown cpu_affinity node") |
| Affinity.LoadThreads | src/util-affinity.c:265-272 | the count is stored, and it is an error when it is 0 |
| Affinity.LoadEntry | src/util-affinity.c:204-272 | the four stages in the loader's order give exactly `ApplyConf`, stopping at the first error, and an accepted entry keeps its name and its cursor |
| Affinity.AffinityTable.ApplyAffinityConf | src/util-affinity.c:204-272 | one family's loop body: the entry becomes what the configuration gives, or the error, and no other entry changes |
| Affinity.AffinityTable.LoadFromConfig | src/util-affinity.c:177-275 | initialise, then load the families in order: the table ends as the loader specification says, or the first error is returned |
| Affinity.LoadErrorIsFinal | src/util-affinity.c:196-198 | once a family fails, loading more families still fails with the same error |
| Affinity.ApplyConfAccepts | src/util-affinity.c:204-272 | a family is accepted exactly when every CPU list parses, the default priority and the mode are known names, and the count is not 0 |
| Affinity.ApplyConfResult | src/util-affinity.c:204-272 | an accepted family's CPU set and priority sets are exactly the listed CPUs (empty when absent), the priority, mode and count are the configured ones or kept, and the name and cursor are untouched |
| Affinity.LoadKeepsNames | src/util-affinity.c:191-273 | loading keeps the table's size, every entry's name and its cursor |
| Affinity.LoadRejectsUnknownName | src/util-affinity.c:192-198 | every family of an accepted configuration names an entry of the table |
| Affinity.UnnamedEntryKept | src/util-affinity.c:191-273 | an entry no configured family names is left unchanged |
| Affinity.LastConfDecides | src/util-affinity.c:204-210 | when the last configured family names an entry, that family's CPU list is the entry's CPU set |
| Affinity.LastNamingDecidesCpuSet | src/util-affinity.c:204-210 | a named entry's CPU set is what its last mention lists |
| Affinity.UnmentionedFamilyUsesAllCpus | src/util-affinity.c:107-113 | after a successful load, a family the configuration does not mention runs on every configured CPU |
| Affinity.MentionedFamilyUsesListedCpus | src/util-affinity.c:204-210 | after a successful load, a mentioned family runs on exactly the CPUs of its last mention, and on none when that mention has no "cpu" list |
| Affinity.AffinityTable.GetNextCpu | src/util-affinity.c:281-300 | the scan returns the CPU the cursor specification picks and moves the cursor past it, back to 0 at the online count, and no other entry changes |
| ProtoName.StrTok | src/util-proto-name.c:46-58 | a token is non-empty, contains no blank or tab, and the cursor moves forward |
| ProtoName.TokensAreFields | src/util-proto-name.c:46-58 | successive `strtok_r` calls return exactly the fields of the line, in order |
| ProtoName.LineEntryAsWritten | src/util-proto-name.c:42-63 | the per-line rule as written: a comment line stores nothing, and a stored entry has a non-empty name and a number below 255, possibly negative |
| ProtoName.LineEntry | src/util-proto-name.c:42-63 | a line that stores something stores a non-empty name at a slot from 0 to 254 |
| ProtoName.LineEntryByFields | src/util-proto-name.c:42-63 | comment lines and lines of fewer than two fields store nothing, a number from 255 up is skipped, and otherwise the third field, or else the first, is stored at the second field's number |
| ProtoName.StoreByFields | src/util-proto-name.c:42-63 | one line leaves the table unchanged when skipped, and otherwise replaces exactly the slot of its number |
| ProtoName.StoreSlot | src/util-proto-name.c:58-63 | a line changes only the slot it defines |
| ProtoName.UndefinedSlotKept | src/util-proto-name.c:42-64 | a slot no line defines keeps its value |
| ProtoName.LastDefinitionWins | src/util-proto-name.c:58-63 | a slot holds the name from the last line that defines it |
| ProtoName.DefinedSlots | src/util-proto-name.c:42-64 | after loading, a slot holds a name exactly when it held one before or some line defines it |
| ProtoName.Slot255Untouched | src/util-proto-name.c:54-56 | loading never writes slot 255 |
| ProtoName.ValidIffDefined | src/util-proto-name.c:76-85 | after loading into an empty table, a number is valid exactly when some line defines it, and 255 never is |
| ProtoName.LoadedSlotsBelow255 | src/util-proto-name.c:93-96 | everything loaded into an empty table lies in the slots 0..254 that the clean-up loop visits |
| ProtoName.TwoWordLine | src/util-proto-name.c:46-62 | a line of two words (neither holding a blank or tab, the first not starting with '#') stores the first word at the slot `atoi` reads from the second, unless that is 255 or more |
| ProtoName.ThreeWordLine | src/util-proto-name.c:46-62 | a line of three words stores the third word at the slot `atoi` reads from the second, unless that is 255 or more |
| ProtoName.AliasKeepsNewline | src/util-proto-name.c:58-60 | a line "name n alias\n" with n below 255 stores the alias together with its '\n' at slot n, as "tcp 6 TCP\n" stores "TCP\n" |
| ProtoName.TrailingBlankStoresAtZero | src/util-proto-name.c:46-62 | a line "name \n" reads the '\n' as the number 0 and stores the name at slot 0 |
| ProtoName.NegativeWord | src/util-proto-name.c:54 | "-", the digits of a positive n and '\n' make one word that `atoi` reads as -n, so "x -1\n" is a two-word line with number -1 |
| ProtoName.NegativeNumberPassesGuard | src/util-proto-name.c:54-60 | as written, a two-word line whose number `atoi` reads as negative asks for a store at that negative slot; with the corrected guard it stores nothing |
| ProtoName.ProtoNameTable.Init | src/util-proto-name.c:34-67 | the loop over the lines leaves the table as the line-by-line specification says |
| ProtoName.ProtoNameTable.NameValid | src/util-proto-name.c:76-85 | true exactly when the number is at most 255 and its slot holds a name |
| ProtoName.ProtoNameTable.DeInit | src/util-proto-name.c:90-97 | the freed slots are exactly those from 0 to 254 that hold a name, visited in increasing order |

## Left out

- Mutexes (`SCMutexInit`, `SCMutexLock`, `SCMutexUnlock`): concurrency is not modelled. The cursor update is sequential.
- `UtilCpuGetNumProcessorsConfigured` and `UtilCpuGetNumProcessorsOnline` are foreign calls. Their results are the parameters `ncpu` and `online`. The online count is taken as constant for the duration of one `AffinityGetNextCPU` call.
- `ConfGetNode` and `ConfNodeLookupChild` are foreign calls. The configuration is given as `AffinityConf` records, one per family node, each holding the optional values of its "cpu", "prio", "mode" and "threads" children. Duplicate children and the layout of the configuration tree are not modelled.
- `SCLog*` logging is not modelled. Each fatal diagnostic is the `LoadError` case it names.
- `cpu_set_t` capacity is not modelled: CPUs are unbounded integers in a set. Overflow of `strtol`, `strtoul`, `atoi` and `int` is not modelled either: conversions use unbounded integers.
- Affinity.AffinityTable.GetNextCpu: requires that the cursor's CPU is in the set or the set has a CPU below the online count. Otherwise the source's scan never ends (a family whose set holds no online CPU), and a terminating model cannot represent that.
- CpuCursor.NextCpu: carries the same precondition, for the same reason.
- The Windows and OpenBSD builds, in which these functions do nothing, are not modelled.
- `fopen`, `fgets` and `fclose` are I/O. The protocols file is given as the sequence of chunks `fgets` returns, each with its `'\n'`. A missing file is the empty sequence. Splitting of lines longer than 199 bytes is therefore not modelled.
- `strdup` and `SCFree` are allocation. Names are stored as values. `SCProtoNameDeInit` returns the slots it frees and leaves them in the table, as the source leaves the pointers. The leak when a slot is overwritten is not modelled.
- Strings are character sequences: embedded NUL characters and byte encodings are not modelled.
- The declaration of `known_proto` is not part of this model. Its 256 slots follow from `SCProtoNameValid` reading index 255.
- ProtoName.ProtoNameTable.Init: skips negative protocol numbers, unlike the source (see Findings), since the source's store there is out of bounds.
- src/util-logopenfile.c is not part of this model: it is socket and file I/O.
- src/detect-engine-port.h is not part of this model: it holds only prototypes.

## Findings

| source | as written | input that shows it | evidently intended | confidence | as-written member | corrected member |
|---|---|---|---|---|---|---|
| src/util-proto-name.c:54-60 | the only guard on `atoi`'s result is `proto >= 255`, so a negative number reaches `known_proto[proto]` | the protocols line "x -1\n" (NegativeWord with n = 1) writes `known_proto[-1]` | skip numbers below 0 as well, so every store stays inside the table | high for the out-of-bounds store; not executed | ProtoName.NegativeNumberPassesGuard | ProtoName.LineEntry |
