# aos-tools in Dafny

A model of the log-analysis tools of aos-tools. The tools read console logs, tech-support
dumps and running configurations of Aruba OS wireless controllers, and print tables and
counts from them. The model covers:

- **The table parser** (`aos_parser.py`). It is modelled in `AosParser`, `AosParserFacts`,
  `AosQuery` and `AosFormat`.
  - It makes one pass over the log lines. It recognises the output of chosen `show`
    commands and cuts each dashed-separator section into rows at the separator's column
    offsets. It applies the per-command filters: active APs only, and the dpi AppID
    cleanup.
  - The pass is a left fold of `Step`. The class `AOSParser` performs the same pass
    imperatively and is proved to agree with it.
  - Every stored table is a trimmed header followed by at least one data row.
  - The queries (`get_table`, `get_tables`, column projection) and the two renderings
    (`table2str`, `table2csv`) are modelled with their alignment and round-trip
    properties.
- **The running-config reader `parse_config`**, which is shared by the `nttbp-*.py`
  scripts. It is modelled in `AosConfig` and `AosConfigFacts`, with a `Variant` per
  script.
- **The nttbp analyses**:
  - VAP sets per AP (`VapSets`);
  - the summaries of `nttbp-summarize.py` (`SummarizeAps`), `nttbp-summarize2.py`
    (`Summarize2`) and `nttbp-summarize-functinos.py` (`SummarizeFunctions`,
    `FunctionsTable`);
  - the system-profile listing of `nttbp-apsys.py` (`ApSysAps`);
  - the identical ap-group search of `nttbp-sameapgroup.py` (`SameApGroups`).
- **The analysis scripts**, one module each:
  - `ap2xls.py`, `ap2xls_numsta.py`;
  - `ap-monitor-list.py`, `ap-monitor-list-sum.py`, `cli-monitor-list.py`;
  - `arm-state.py`, `arm-nbrs.py`;
  - `dif-radio-stats.py`, `dp-msgq.py`;
  - `dp-ses-toprate.py`, `dp-ses-topuser.py`, `dp-ses-udp.py`, `dp-ses-zoom.py`;
  - `esx-apname.py`, `phycap-distrib.py`;
  - `radar-stats.py`, `radar-stats-nttd.py`;
  - `retry_rates.py`, `toptalker.py`.
- **The shared idioms these scripts use**, each modelled once:
  - Python string operations (`Text`);
  - `defaultdict(int)` tallies (`Tally`);
  - filtering and counting (`Counting`);
  - keep-the-best-per-key dictionaries (`KeepMax`);
  - stable sorts by key, including reversed ones (`StableSort`, `Sorting`);
  - `uniq` (`Uniq`);
  - loops that stop at the first exception (`Results`);
  - the 5 GHz channel tables (`Channels`);
  - the monitor-list rows and sections (`MonitorRows`, `MonitorSections`);
  - the datapath session fields (`Sessions`).

How the model is written:

- An exception that ends a script is a `Result` error.
- A loop that updates variables is a `method` proved equal to a specification function.
  The properties the scripts rely on are lemmas about those functions.
- Input is given as a sequence of lines. Each line is a `string` without its line
  terminator.
- Standard output is modelled as the values the scripts print: rows, counts and colours.
  The text layout of that output is not modelled.

## Model

| member | source | states |
|---|---|---|
| AosParser.DashRunStarts | aos_parser.py:163-164 | the offsets `re.finditer('-+')` reports: each is the start of a maximal dash run, in increasing order |
| AosParser.DashRunStartsComplete | aos_parser.py:163-164 | no dash run is missed: every run start at or after the search position is among the offsets |
| AosParser.SeparatorOffsets | aos_parser.py:160-164 | a line matching `-+ +-` gives at least two offsets, the first being column 0 |
| AosParser.TrimCell | aos_parser.py:169-170 | a header cell is stripped on both sides; a data cell (lines 116-117) is stripped on the right only |
| AosParser.DataRow | aos_parser.py:116-117 | a data row has one cell per separator offset, the last cell running to the end of the line |
| AosParser.HeaderRow | aos_parser.py:169-170 | a header row has one cell per separator offset |
| AosParser.AppIdCell | aos_parser.py:126-130 | the dpi AppID cell becomes "unknown" when it starts with a space, otherwise its first space-separated word; the result never holds a space |
| AosParser.StoreIfNonEmpty | aos_parser.py:51-56 | `end_of_cmd` appends the current occurrence to `tables[cur_cmd]` when it accepted a row, and leaves `tables` as it was when it accepted none; it resets the row count and changes no other field |
| AosParser.AddRow | aos_parser.py:122-133 | a kept row is appended to the occurrence with as many cells as the row and the count goes up by one; otherwise nothing changes; a missing filter column is an error |
| AosParser.ContentStep | aos_parser.py:88-134 | a line inside a section either leaves the occurrence alone (a skipped or closing line) or appends one row of one cell per offset; the command and offsets are unchanged |
| AosParser.TakeHeader | aos_parser.py:166-177 | taking the header changes only the occurrence and the filter columns; a header without "Status" or "AppID" raises, as `list.index` does |
| AosParser.OpenSection | aos_parser.py:160-177 | a separator opens a content section with the separator's offsets (at least two) and keeps the stored tables and the command |
| AosParser.OutsideStep | aos_parser.py:136-180 | a line outside a section keeps the table map keyed by the requested commands |
| AosParser.Step | aos_parser.py:84-180 | one input line keeps the table map keyed by the requested commands |
| AosParser.SelectCommandShape | aos_parser.py:145-153 | the command loop leaves the parser outside a section, with the table map unchanged |
| AosParser.Run | aos_parser.py:84-180 | folding `Step` over the lines keeps the table map keyed by the requested commands |
| AosParser.AOSParser.EndOfCmd | aos_parser.py:51-56 | the object's state becomes `StoreIfNonEmpty` of its old state |
| AosParser.AOSParser.ContentLine | aos_parser.py:88-134 | the object's state becomes `ContentStep` of its old state, or the error it raises is returned |
| AosParser.AOSParser.DataLine | aos_parser.py:116-133 | the object's state becomes `AddRow` of its old state, or the error is returned |
| AosParser.AOSParser.CommandLine | aos_parser.py:141-155 | the object's state becomes the command loop's selection from its old state |
| AosParser.AOSParser.HeaderLine | aos_parser.py:166-177 | the object's state becomes `TakeHeader` of its old state, or the error is returned |
| AosParser.AOSParser.SeparatorLine | aos_parser.py:160-177 | the object's state becomes `OpenSection` of its old state, or the error is returned |
| AosParser.AOSParser.OutsideLine | aos_parser.py:136-180 | the object's state becomes `OutsideStep` of its old state, or the error is returned |
| AosParser.AOSParser.AddCommands | aos_parser.py:67-71 | every requested command starts with an empty list of occurrences |
| AosParser.AOSParser.Feed | aos_parser.py:84-180 | after one line is right-stripped and handled, the object's state is `Step` of its old state |
| AosParser.AOSParser.constructor | aos_parser.py:58-184 | the parsed tables are exactly those of `Parse`; when `Parse` fails, the failure is recorded instead |
| AosParserFacts.InitGood | aos_parser.py:67-74 | the empty table map satisfies the parser invariant |
| AosParserFacts.StoreGood | aos_parser.py:51-56 | closing a command keeps the parser invariant; an occurrence that accepted a row is a header followed by at least one data row, and is appended to its command's list as it is |
| AosParserFacts.SelectCommandGood | aos_parser.py:145-153 | every command picked by the loop starts a fresh, empty occurrence |
| AosParserFacts.HeaderTrimmed | aos_parser.py:169-170 | every header cell has no whitespace at either end |
| AosParserFacts.OpenSectionGood | aos_parser.py:160-177 | a separator outside a section keeps the invariant; a fresh occurrence gets its header and filter columns |
| AosParserFacts.AddRowGood | aos_parser.py:122-133 | a kept data row keeps the occurrence well formed: at least two cells, Status starting with "Up" when only active APs are kept, an AppID without spaces |
| AosParserFacts.ContentStepGood | aos_parser.py:88-134 | a line inside a section keeps the parser invariant |
| AosParserFacts.OutsideStepGood | aos_parser.py:136-180 | a line outside a section keeps the parser invariant |
| AosParserFacts.StepGood | aos_parser.py:84-180 | every line keeps the parser invariant |
| AosParserFacts.RunGood | aos_parser.py:84-180 | the invariant holds after every prefix of the input that raised nothing |
| AosParserFacts.ParsedTablesOk | aos_parser.py:58-184 | each parsed table belongs to a requested command and is a trimmed header followed by at least one data row. Every row has at least two cells. The AP-database Status filter and the dpi AppID cleanup hold for every row |
| AosParserFacts.SelectCommandNoMatch | aos_parser.py:145-155 | a line that matches no command pattern leaves the state unchanged |
| AosParserFacts.SelectCommandLastMatch | aos_parser.py:145-153 | when several patterns match, the last one becomes the current command (the `continue` does not leave the loop) |
| AosParserFacts.BlankLineEndsSection | aos_parser.py:109-111 | outside a datapath command, a blank line ends the section but keeps the command open |
| AosParserFacts.DatapathSkips | aos_parser.py:92-96 | in a datapath session table a blank line, or one starting with a MAC address, changes nothing |
| AosParserFacts.DatapathNonDigitCloses | aos_parser.py:97-101 | in a datapath session table the first other line not starting with a digit closes the command and is consumed, not tried as a command start |
| AosParserFacts.AssociationClosesOnNumClients | aos_parser.py:102-107 | in the association table a line starting "Num Clients:" closes the command and is consumed |
| AosParserFacts.ShowClosesCommand | aos_parser.py:136-139 | between sections, a line containing "show " closes the command and is then tried as a command start |
| AosParserFacts.LaterSeparatorKeepsRows | aos_parser.py:166-177 | a separator in an occurrence that already has rows only resets the offsets; no second header is taken |
| AosQuery.ColumnIndices | aos_parser.py:29 | `[header.index(col) …]` gives the first position of each column; it succeeds iff every column is in the header, and otherwise names a missing column |
| AosQuery.ProjectRow | aos_parser.py:30-35 | projecting a row succeeds iff the row is long enough; the result is a bare cell for one column and a tuple for several |
| AosQuery.ProjectRows | aos_parser.py:30-35 | the rows are projected in order, and this succeeds iff every row projects |
| AosQuery.ColsGen | aos_parser.py:28-35 | `_get_cols_gen` skips the header and yields, for data row i, that row's projection on the columns' first positions (a bare cell for one column, a tuple for several); a missing column raises ValueError, and the projection fails with the IndexError exactly when some data row is too short |
| AosQuery.NumTables | aos_parser.py:186-189 | the number of stored occurrences of a command, or 0 for an unknown command |
| AosQuery.GetTables | aos_parser.py:198-203 | None iff nothing is stored; otherwise every occurrence, in order, whole or projected |
| AosQuery.GetTable | aos_parser.py:191-196 | None iff nothing is stored for the command |
| AosQuery.GetTableIsFirst | aos_parser.py:191-203 | `get_table` is the first element of `get_tables` |
| AosQuery.ActiveStatusColumn | aos_parser.py:122-124 | with only active APs kept, projecting a parsed AP-database table on Status raises nothing, and every cell starts with "Up" |
| AosFormat.WidenBy | aos_parser.py:255 | `map(max, widths, map(len, row))` stops at the shorter of the two lists |
| AosFormat.WidthsAreMaxima | aos_parser.py:253-255 | the width fold gives one width per column that every row has. Each width is at least every row's cell length, and equals the start value or some row's cell length |
| AosFormat.ColumnWidths | aos_parser.py:253-255 | the width loop computes the widths fold over the table |
| AosFormat.PadRight | aos_parser.py:259 | `'{:n}'.format(s)` is s followed by spaces, to length at least n |
| AosFormat.Table2Str | aos_parser.py:249-263 | the imperative `table2str` equals the `Render` specification |
| AosFormat.RenderFails | aos_parser.py:249-263 | `table2str` raises exactly when the table has data rows and some row is empty |
| AosFormat.RenderAligned | aos_parser.py:257-262 | the columns line up: in every line, cell k starts at the same offset, computed from the column widths |
| AosFormat.CsvRoundTrip | aos_parser.py:265-270 | splitting the `table2csv` text at newlines and commas gives the table back, when no cell holds a comma or newline and no row is empty |
| AosConfig.BandOf | nttbp-summarize-functinos.py:287-303 | the band given at a regulatory-domain profile's `!` is always one of the eight band names |
| AosConfig.HeaderOf | nttbp-summarize-functinos.py:196-277 | the context a header line opens, and the keyword length, which never exceeds the line |
| AosConfig.Unquote | nttbp-summarize-functinos.py:198 | `.replace('"', '')` leaves no `"` in a profile name |
| AosConfig.Open | nttbp-summarize-functinos.py:196-277 | a header creates a fresh profile as the open context and leaves the dictionaries as they were |
| AosConfig.OutsideStep | nttbp-summarize-functinos.py:186-279 | a line outside every context raises the ACL count iff it starts with `ip access-list session `, and the user-role count iff it starts with `user-role ` |
| AosConfig.SsidLine | nttbp-summarize-functinos.py:315-345 | an ssid-profile line keeps the profile's name |
| AosConfig.VapLine | nttbp-summarize-functinos.py:347-377 | only an `ssid-profile` line changes a VAP's ssid profile. It disables the VAP when that profile is disabled |
| AosConfig.ApGroupLine | nttbp-summarize-functinos.py:379-397 | a `virtual-ap` line appends the named VAP (which must exist) to the group; other lines leave its VAPs alone |
| AosConfig.ApNameLine | nttbp-summarize-functinos.py:399-426 | `virtual-ap` appends the named VAP and `exclude-virtual-ap` appends one exclusion; the ap-name is marked stored iff such a line was read |
| AosConfig.ArmLine | nttbp-summarize-functinos.py:428-438 | an arm-profile line keeps the profile's name |
| AosConfig.RadioLine | nttbp-summarize-functinos.py:440-466 | the ARM profile changes only on an `arm-profile` line naming a defined profile; an undefined one is reported and the previous one stays |
| AosConfig.AaaLine | nttbp-summarize-functinos.py:468-499 | an aaa-profile line keeps the profile's name |
| AosConfig.HtSsidLine | nttbp-summarize-functinos.py:501-518 | an ht-ssid-profile line keeps the profile's name |
| AosConfig.RegDomLine | nttbp-summarize-functinos.py:520-529 | a regulatory-domain line keeps the name and leaves the band unset until `!` |
| AosConfig.Dot1xLine | nttbp-summarize-functinos.py:531-538 | a dot1x line keeps the profile's name |
| AosConfig.ContextLine | nttbp-summarize-functinos.py:308-538 | a line inside a context keeps it open. An ap-name stays the same block, marked stored once a VAP line is read. An ap-group's conf gains the line plus a newline in nttbp-sameapgroup.py only |
| AosConfig.WriteBack | nttbp-summarize-functinos.py:399-409 | leaving a context leaves the counters alone and writes an ap-name into `ap_names` only when one of its lines stored it |
| AosConfig.Close | nttbp-summarize-functinos.py:286-306 | `!` gives a regulatory-domain profile its band, then writes back the open profile |
| AosConfig.InsideStep | nttbp-summarize-functinos.py:285-538 | inside a context only `!` closes it; other lines leave the dictionaries and counters alone |
| AosConfig.ReadLine | nttbp-summarize-functinos.py:185-538 | the loop body computes `Step` |
| AosConfig.ParseConfigLines | nttbp-summarize-functinos.py:164-540 | the imperative `parse_config` equals the `ParseConfig` specification, the KeyError of an undefined reference included |
| AosConfigFacts.InitGood | nttbp-summarize-functinos.py:165-183 | the dictionaries `parse_config` starts from satisfy the invariant |
| AosConfigFacts.LoweredKey | nttbp-summarize-functinos.py:217 | an ap-group or ap-name key is lowercased and has no `"` |
| AosConfigFacts.OpenGood | nttbp-summarize-functinos.py:196-277 | opening a context keeps the invariant |
| AosConfigFacts.VapLineGood | nttbp-summarize-functinos.py:352-357 | every VAP line keeps a VAP disabled when its ssid profile is disabled |
| AosConfigFacts.ApGroupLineGood | nttbp-summarize-functinos.py:379-397 | an ap-group line keeps the group's name and the well-formedness of its VAPs |
| AosConfigFacts.ApNameLineGood | nttbp-summarize-functinos.py:399-426 | an ap-name is marked stored iff it has a VAP or exclusion line |
| AosConfigFacts.ContextLineGood | nttbp-summarize-functinos.py:308-538 | a line inside a context keeps the open profile well formed |
| AosConfigFacts.SsidStored | nttbp-summarize-functinos.py:205 | storing an ssid profile under its unquoted name keeps the invariant |
| AosConfigFacts.VapStored | nttbp-summarize-functinos.py:212 | storing a VAP keeps the invariant |
| AosConfigFacts.GroupStored | nttbp-summarize-functinos.py:219 | storing an ap-group under its key keeps the invariant |
| AosConfigFacts.ApNameStored | nttbp-summarize-functinos.py:403 | storing an ap-name that has a VAP line keeps the invariant |
| AosConfigFacts.ArmStored | nttbp-summarize-functinos.py:232 | storing an arm profile keeps the invariant |
| AosConfigFacts.Dot11aStored | nttbp-summarize-functinos.py:240 | storing a dot11a radio profile keeps the invariant |
| AosConfigFacts.Dot11gStored | nttbp-summarize-functinos.py:248 | storing a dot11g radio profile keeps the invariant |
| AosConfigFacts.ApSysStored | nttbp-apsys.py:129-134 | storing an ap system-profile keeps the invariant |
| AosConfigFacts.AaaStored | nttbp-summarize-functinos.py:255 | storing an aaa profile keeps the invariant |
| AosConfigFacts.HtSsidStored | nttbp-summarize-functinos.py:262 | storing an ht-ssid profile keeps the invariant |
| AosConfigFacts.Dot1xStored | nttbp-summarize-functinos.py:276 | storing a dot1x profile keeps the invariant |
| AosConfigFacts.RegDomStored | nttbp-summarize-functinos.py:269 | storing a regulatory-domain profile whose band is set to a listed band keeps the invariant |
| AosConfigFacts.WriteBackGood | nttbp-summarize-functinos.py:286-306 | writing back the open profile keeps the invariant |
| AosConfigFacts.WriteBackApGood | nttbp-summarize-functinos.py:286-306 | write-back keeps the invariant for the AP, ssid and VAP profiles |
| AosConfigFacts.WriteBackRadioGood | nttbp-summarize-functinos.py:286-306 | write-back keeps the invariant for the radio, aaa, ht-ssid, regulatory-domain and dot1x profiles |
| AosConfigFacts.CloseGood | nttbp-summarize-functinos.py:286-306 | `!` keeps the invariant |
| AosConfigFacts.StepGood | nttbp-summarize-functinos.py:185-538 | every line that raises nothing keeps the invariant |
| AosConfigFacts.RunGood | nttbp-summarize-functinos.py:185-538 | the invariant holds after any input that raised nothing |
| AosConfigFacts.ParsedConfigGood | nttbp-summarize-functinos.py:164-540 | in the returned dictionaries, keys carry no `"` and ap-group and ap-name keys are lowercased. Every ap-name has a VAP or exclusion line. A VAP whose ssid profile is disabled is disabled. A band is one of the eight |
| AosConfigFacts.StepCounters | nttbp-summarize-functinos.py:188-194 | one line moves a counter by one exactly when it is read outside a context and starts with that counter's keyword |
| AosConfigFacts.RunCounters | nttbp-summarize-functinos.py:188-194 | `num_acls` and `num_user_roles` count the `ip access-list session ` and `user-role ` lines met outside every context |
| AosConfigFacts.ApNameHeader | nttbp-summarize-functinos.py:222-226 | an ap-name header opens a block under the lowercased, unquoted name without storing anything |
| AosConfigFacts.ApNameStep | nttbp-summarize-functinos.py:399-426 | a line of an ap-name block keeps the block open and marks it stored when it is a VAP line |
| AosConfigFacts.ApNameBody | nttbp-summarize-functinos.py:399-426 | within an ap-name block, the dictionaries stay unchanged. The block is marked stored iff some line so far is a VAP line |
| AosConfigFacts.CloseStep | nttbp-summarize-functinos.py:286-306 | `!` writes back the open profile and leaves the reader outside every context |
| AosConfigFacts.ApNameBlock | nttbp-summarize-functinos.py:222-226 | a whole ap-name block adds its key to `ap_names` iff it has a `virtual-ap` or `exclude-virtual-ap` line, and otherwise leaves `ap_names` as it was |
| AosConfigFacts.ApNameClose | nttbp-summarize-functinos.py:286-306 | `!` after an ap-name block writes it back and closes the context |
| AosConfigFacts.ApGroupHeader | nttbp-sameapgroup.py:151-156 | an ap-group header opens a block under the lowercased, unquoted name with an empty conf |
| AosConfigFacts.ApGroupBody | nttbp-sameapgroup.py:245-246 | the conf of an open ap-group block is its stripped lines so far, each followed by a newline |
| AosConfigFacts.ApGroupConf | nttbp-sameapgroup.py:245-246 | once an ap-group block is closed, the stored group's conf is every stripped line of the block, without the `!` |
| AosConfigFacts.ApGroupClose | nttbp-sameapgroup.py:192-194 | `!` after an ap-group block stores the group under its key with its conf |
| AosConfigFacts.BandTable | nttbp-summarize-functinos.py:287-301 | each of the seven listed channel strings gives its band |
| AosConfigFacts.CustomIffUnlisted | nttbp-summarize-functinos.py:302-303 | the band is Custom exactly when the channel string is not listed |
| AosConfigFacts.UndefinedReferences | nttbp-summarize-functinos.py:352-354 | an undefined `ssid-profile` (in a virtual-ap block) or `virtual-ap` (in an ap-group or ap-name block) reference raises KeyError; an undefined `arm-profile` (lines 444-451) never does. The other reference kinds each have a lemma of their own in the rows that follow |
| AosConfigFacts.UndefinedAaa | nttbp-summarize-functinos.py:348-350 | in the functinos variant, an `aaa-profile` line of a virtual-ap block naming an undefined profile raises KeyError |
| AosConfigFacts.UndefinedHtSsid | nttbp-summarize-functinos.py:328-330 | in the functinos variant, an `ht-ssid-profile` line of an ssid-profile block naming an undefined profile raises KeyError |
| AosConfigFacts.UndefinedDot1x | nttbp-summarize-functinos.py:473-475 | an `authentication-dot1x` line of an aaa profile block naming an undefined dot1x profile raises KeyError |
| AosConfigFacts.UndefinedDot11a | nttbp-summarize-functinos.py:385-412 | a `dot11a-radio-profile` line of an ap-group or ap-name block naming an undefined profile raises KeyError |
| AosConfigFacts.UndefinedDot11g | nttbp-summarize-functinos.py:389-416 | a `dot11g-radio-profile` line of an ap-group or ap-name block naming an undefined profile raises KeyError |
| AosConfigFacts.UndefinedRegDom | nttbp-summarize-functinos.py:393-420 | in the functinos variant, a `regulatory-domain-profile` line of an ap-group or ap-name block naming an undefined profile raises KeyError |
| AosConfigFacts.MissingDefaultA | nttbp-summarize-functinos.py:235-241 | in the functinos variant, an `rf dot11a-radio-profile` header raises KeyError when no `default-a` ARM profile exists (it is added only for config version 8, lines 177-181) |
| AosConfigFacts.MissingDefaultG | nttbp-summarize-functinos.py:243-249 | in the functinos variant, an `rf dot11g-radio-profile` header raises KeyError when no `default-g` ARM profile exists |
| AosConfigFacts.RadioHeaderOpens | nttbp-summarize-functinos.py:235-249 | outside any block, an `rf dot11a-radio-profile` or `rf dot11g-radio-profile` header opens that radio profile under the name after the keyword |
| VapSets.KeyOf | nttbp-summarize.py:473 | a VAP's tuple (essid, opmode, forward mode) exists iff it has an ssid profile; reading it without one is the AttributeError |
| VapSets.KeysOfMembers | nttbp-summarize.py:471-473 | the tuples of a VAP list are defined iff every counted VAP has an ssid profile, and then they are exactly the tuples the counted VAPs carry |
| VapSets.KeysOfDefined | nttbp-summarize.py:471-473 | collecting the tuples fails exactly on a counted VAP without an ssid profile |
| VapSets.KeysOfHas | nttbp-summarize.py:471-473 | a tuple is collected iff a counted VAP carries it |
| VapSets.Lookup | nttbp-summarize.py:475-476 | `c.vap_profs[vap_n]` for every name, in order; it succeeds iff every name is defined |
| VapSets.ApKeysMembers | nttbp-summarize.py:470-481 | a tuple is on the AP iff a counted ap-group VAP carries it and no excluded VAP has it, or a counted VAP of the ap-name carries it |
| VapSets.CollectKeys | nttbp-summarize.py:471-473 | the add loop computes the tuple set of the counted VAPs, or fails as the specification does |
| VapSets.DiscardExcluded | nttbp-summarize.py:475-478 | the discard loop removes exactly the tuples of the excluded VAPs, and fails when one is undefined or has no ssid profile |
| VapSets.ApKeySet | nttbp-summarize.py:470-481 | the three loops compute the AP's tuple set `ApKeys` |
| VapSets.BumpAllCounts | nttbp-summarize.py:486-489 | after a run of APs, each key's count is its start count plus the number of APs whose set holds it; a key has an entry iff it started with one or was met |
| VapSets.Tally | nttbp-summarize.py:486-489 | the counting loop over one AP's set adds one to each of its keys, whatever order the set is walked in |
| SummarizeAps.CoexStep | nttbp-summarize.py:505-519 | visiting an eligible tuple i adds the AP's other tuples to i's co-existence set, counts each of them once, and adds the controller |
| SummarizeAps.CoexSkip | nttbp-summarize.py:505-506 | the carrier SSIDs `0000docomo`, `0001docomo` and `NTT-SPOT` add nothing to the co-existence maps |
| SummarizeAps.MixFlagGrows | nttbp-summarize.py:492-499 | once the mixed flag is 3 (bridge and tunnelled both seen) it stays 3 |
| SummarizeAps.VisitCount | nttbp-summarize.py:487-489 | `vap_count[i] += 1` for the next tuple keeps the count map equal to the specification's count over the tuples visited |
| SummarizeAps.VisitCoex | nttbp-summarize.py:505-519 | one visit's co-existence updates equal the specification's, over the tuples visited so far |
| SummarizeAps.VisitMixed | nttbp-summarize.py:492-499 | the flag is the OR of the bridge and non-bridge bits seen; the AP becomes mixed exactly when the flag first reaches 3 |
| SummarizeAps.AccountAp | nttbp-summarize.py:486-519 | one AP's pass over its VAP set updates both counters, the mixed flag and the co-existence entries as `AddAp` specifies, whatever the walk order |
| SummarizeAps.SummarizeOne | nttbp-summarize.py:437-519 | the loop body for one AP-database row equals `SummarizeRow`, including the KeyError of an unknown ap-group |
| SummarizeAps.CountAps | nttbp-summarize.py:433-519 | the loop over one file's AP database equals the `SummarizeRows` fold |
| SummarizeAps.RowStep | nttbp-summarize.py:437-519 | one row adds one to `num_static` iff the AP is static. An AP with both radios off changes nothing else. Otherwise its VAP set is accounted |
| SummarizeAps.StaticTotal | nttbp-summarize.py:463-464 | `num_static` counts every static AP, including those skipped for having both radios off |
| SummarizeAps.TupleTotals | nttbp-summarize.py:486-503 | over a file, `vap_count` and `global_vap_count` count once per tuple of every non-skipped AP's VAP set |
| SummarizeAps.MixedTotals | nttbp-summarize.py:492-499 | each mixed AP adds one to `mixed_ap_count` and its name to `global_mixed_ap`, and no other AP does |
| SummarizeAps.CoexTotals | nttbp-summarize.py:505-519 | the co-existence maps after a file are those built from the non-skipped APs' VAP sets, in row order |
| SummarizeAps.BothOffContributesNothing | nttbp-summarize.py:459-467 | an AP whose ap-name switches both radios off adds to `num_static` at most |
| SummarizeAps.CoexCounts | nttbp-summarize.py:513-519 | `coex_vaps_count[i][j]` counts the APs that carry both i and j, for every eligible i and every other j |
| SummarizeAps.CoexAllOk | nttbp-summarize.py:507-519 | the co-existence maps stay consistent, and an entry exists exactly for the eligible tuples met |
| Summarize2.Sum2One | nttbp-summarize2.py:387-426 | the loop body for one AP-database row equals `Sum2Row`, including the IndexError of a short row and the KeyError of an unknown ap-group or VAP |
| Summarize2.Sum2Loop | nttbp-summarize2.py:356-426 | one file adds its AP count to `total_ap`, then runs the loop over its rows, as `Sum2File` specifies |
| Summarize2.Sum2RowsLoop | nttbp-summarize2.py:387-426 | the loop over a file's rows equals the `Sum2Rows` fold |
| Summarize2.Sum2RowFields | nttbp-summarize2.py:388-421 | an accepted row has at least six columns. Its group joins the group set and its cellular-handoff-assist ESSIDs join that set. `global_vap_set[apn]` becomes its VAP set |
| Summarize2.Sum2RowsOk | nttbp-summarize2.py:387-419 | a completed loop saw only rows with six or more columns whose VAP sets could be built |
| Summarize2.Sum2RowCounts | nttbp-summarize2.py:394-426 | one row adds one to its model's count and one to each tuple of its VAP set. It adds one to `num_rap` iff its flags contain `R`. `total_ap` is unchanged |
| Summarize2.Sum2VapCount | nttbp-summarize2.py:423-426 | `global_vap_count` after a file counts, per tuple, the APs whose enabled VAPs carry it |
| Summarize2.Sum2ModelCount | nttbp-summarize2.py:394-397 | `global_ap_model_count` after a file counts the APs of each model |
| Summarize2.Sum2NumRap | nttbp-summarize2.py:399-401 | `num_rap` after a file counts its remote APs, and the loop leaves `total_ap` alone |
| Summarize2.Sum2Groups | nttbp-summarize2.py:392 | an ap-group is in `global_apg_set` iff it was there before or some row names it (lowercased) |
| Summarize2.Sum2Cha | nttbp-summarize2.py:405-419 | an ESSID is in `global_cha_ssid` iff some row's group or ap-name has an enabled cellular-handoff-assist VAP for it |
| Summarize2.Sum2VapSets | nttbp-summarize2.py:421 | `global_vap_set` has an entry exactly for the AP names met, holding the set of the last row with that name; other entries are unchanged |
| Summarize2.LastWriteWins | nttbp-summarize2.py:421 | one more row writes its value under its AP name, so each name's entry is the value of its last row |
| Summarize2.CountModes | nttbp-summarize2.py:438-449 | `n_tun`, `n_split` and `n_bridge` count the tuples of each forwarding mode; the rest are reported as unknown, and the four counts add up to the number of tuples |
| SummarizeFunctions.HasCounted | nttbp-summarize-functinos.py:749-835 | every function a VAP can have is one of those with a counting dictionary |
| SummarizeFunctions.VisitVaps | nttbp-summarize-functinos.py:735-835 | the loop over an AP's VAP objects adds one to `global_vap_count` for each of their tuples. It adds one to each function of each tuple's first VAP. It fails only where some walk order must or may raise |
| SummarizeFunctions.VisitDone | nttbp-summarize-functinos.py:735-741 | once every VAP is visited, each has an ssid profile, and the first VAPs of the tuples cover every tuple |
| SummarizeFunctions.VisitOne | nttbp-summarize-functinos.py:736-741 | one VAP: a new tuple is counted, and a tuple already seen is passed over (the 2.4 and 5 GHz twins) |
| SummarizeFunctions.VisitSeen | nttbp-summarize-functinos.py:738-739 | a VAP whose tuple was already seen changes nothing |
| SummarizeFunctions.VisitNew | nttbp-summarize-functinos.py:741-742 | the first VAP of a tuple becomes that tuple's representative |
| SummarizeFunctions.CountFirst | nttbp-summarize-functinos.py:742-835 | the first VAP of tuple t adds one AP for the tuple, and one for each function the VAP has |
| FunctionsTable.VapProfSet | nttbp-summarize-functinos.py:720-732 | `vap_prof_set` built by add, discard-excluded and add equals `VapObjs`, the KeyError of an undefined excluded VAP included |
| FunctionsTable.MarksBetween | nttbp-summarize-functinos.py:735-835 | whichever VAP represents each tuple, the function entries bumped lie between those every representative has and those some representative has |
| FunctionsTable.VisitKeepsInv | nttbp-summarize-functinos.py:742-835 | an AP bumps a function entry only for a tuple it also bumps, so no function count exceeds the tuple's AP count |
| FunctionsTable.SkipStep | nttbp-summarize-functinos.py:702-703 | a row with both radios off leaves the counters as they are |
| FunctionsTable.VisitStep | nttbp-summarize-functinos.py:735-835 | a visited row moves the counters by its tuples and by function marks between its bounds |
| FunctionsTable.CountRow | nttbp-summarize-functinos.py:656-835 | one AP-database row stops the script when it is short, names an undefined group or excluded VAP, or has an unknown band. An AP with both radios off is skipped; otherwise its VAPs are visited |
| FunctionsTable.CountFile | nttbp-summarize-functinos.py:656-835 | on success, every tuple is counted once per AP that carries it; function counts stay between their bounds and never exceed the tuple's count. A row that must raise makes the loop fail |
| FunctionsTable.RowAdd | nttbp-summarize-functinos.py:871-883 | one cell per tuple: `-` when the function is absent, the circle when every AP of the tuple has it, otherwise the count, which is then strictly between 0 and the tuple's AP count |
| FunctionsTable.Results | nttbp-summarize-functinos.py:886-959 | the results table has one row per listed function, named as listed, each filled by `row_add` |
| ApSysAps.ApSysName | nttbp-apsys.py:410-413 | the profile an AP uses is its stored ap-name's own when set. Otherwise it is its ap-group's, and an undefined ap-group is the KeyError |
| ApSysAps.CollectBridge | nttbp-apsys.py:439-442 | the loop adds exactly the ESSIDs of the bridge-mode tuples |
| ApSysAps.ApSysOne | nttbp-apsys.py:405-442 | the loop body for one AP-database row equals `ApSysRow` |
| ApSysAps.CollectApSys | nttbp-apsys.py:401-442 | the loop over one file's AP database equals the `ApSysRows` fold |
| ApSysAps.ApSysApMembers | nttbp-apsys.py:422-425 | an AP name is listed under a profile iff some row counted under that profile names it |
| ApSysAps.ApSysSsidMembers | nttbp-apsys.py:427-442 | an ESSID is listed under a profile iff it is on a bridge VAP of some row counted under that profile |
| ApSysAps.ApSysAclFound | nttbp-apsys.py:417-420 | `ses_acl_found` holds iff some row's profile has a session ACL |
| ApSysAps.ApSysRowsOk | nttbp-apsys.py:401-442 | on a parsed configuration, every collected profile name is a defined profile with a session ACL |
| ApSysAps.OutputRow | nttbp-apsys.py:453-456 | a profile's row is the file, the profile name and its ACL, then its APs and bridge SSIDs sorted, one per line |
| ApSysAps.ApSysTable | nttbp-apsys.py:445-457 | no rows when no ACL was found. Otherwise one row per collected profile, in name order. A collected profile that is not a key is the KeyError, which cannot happen on a parsed configuration |
| SameApGroups.ActiveMembers | nttbp-sameapgroup.py:417-426 | collecting the groups fails iff some row has fewer than two columns; otherwise a name is collected iff some row's group, lowercased, is that name |
| SameApGroups.CollectActive | nttbp-sameapgroup.py:417-426 | the loop computes `active_apg_names` as `ActiveGroups` specifies |
| SameApGroups.Find | nttbp-sameapgroup.py:433 | the position of the entry of `same_apg_lists` for a first group, or None iff there is no such entry |
| SameApGroups.FindDups | nttbp-sameapgroup.py:428-437 | the loop over the sorted active groups equals the `DupFold` specification, the KeyError of an unknown group included |
| SameApGroups.DupFoldDefined | nttbp-sameapgroup.py:428-429 | the visit raises no KeyError iff every visited name is a group of the configuration |
| SameApGroups.MembersSource | nttbp-sameapgroup.py:428-437 | every member listed for a configuration text is the name of a visited group with that text |
| SameApGroups.MembersEmpty | nttbp-sameapgroup.py:428-437 | a visited group with a configuration text makes that text's member list non-empty |
| SameApGroups.OrigInjective | nttbp-sameapgroup.py:430-437 | two configuration texts never have first groups of the same name |
| SameApGroups.StepNewConf | nttbp-sameapgroup.py:436-437 | a group with a text not seen before becomes the first group of that text |
| SameApGroups.NewConfMembers | nttbp-sameapgroup.py:436-437 | after a group with a new text, only that text's member list changes, and it holds that group alone |
| SameApGroups.StepKnownConf | nttbp-sameapgroup.py:430-435 | a later group with a seen text joins the entry of that text's first group |
| SameApGroups.EntryOf | nttbp-sameapgroup.py:430-435 | the entry of a text's first group lists the text's later groups |
| SameApGroups.StepJoin | nttbp-sameapgroup.py:435 | when the first group already has an entry, the group is appended to it |
| SameApGroups.StepFirstDup | nttbp-sameapgroup.py:433-435 | the first duplicate of a text creates the first group's entry at the end of the list, holding the duplicate |
| SameApGroups.DupStepInv | nttbp-sameapgroup.py:428-437 | one visited group keeps the invariant tying entries to member lists |
| SameApGroups.DupFoldInv | nttbp-sameapgroup.py:428-437 | the whole visit keeps the invariant |
| SameApGroups.DropLast | nttbp-sameapgroup.py:441 | `conf[:-1]` drops exactly the last character |
| SameApGroups.GroupCell | nttbp-sameapgroup.py:441-444 | the second column is the first group followed by each later one, newline-separated |
| SameApGroups.DupRows | nttbp-sameapgroup.py:439-446 | one row per entry of `same_apg_lists`, in order: controller, group cell, configuration text without its last newline. It fails iff a first group is not stored under its lowercased name |
| SameApGroups.DupTable | nttbp-sameapgroup.py:428-446 | every entry lists the visited groups with one configuration text, and at least two of them. Every text shared by two or more groups has an entry, and no two entries share a first group |
| SameApGroups.ParsedKeyedByLower | nttbp-sameapgroup.py:151-156 | in a parsed configuration, a group looked up by a lowercased name is stored under that name |
| SameApGroups.SameGroupRows | nttbp-sameapgroup.py:413-446 | a controller's report fails when a row is short or when an active group is undefined (the KeyError of `c.ap_groups[apg_n]`); on a parsed configuration it succeeds otherwise. Its rows are those of `same_apg_lists` after the visit of the sorted active names, in that order. On a parsed configuration, each row lists the active groups sharing one configuration text in name order, no text has two rows, and every shared text has one |
| SameApGroups.ActiveLowered | nttbp-sameapgroup.py:426 | every sorted active group name is lowercased |
| SameApGroups.RowsTable | nttbp-sameapgroup.py:439-446 | the rows built from the final state correspond one-to-one to the configuration texts shared by two or more visited groups: each row carries its text's groups and the text without its last character, no text has two rows, and every shared text has one |
| Text.RStrip | aos_parser.py:85 | `str.rstrip()` gives a prefix of the line that does not end in whitespace |
| Text.RStripRemovesSpace | aos_parser.py:85 | `rstrip()` removes whitespace only |
| Text.Strip | aos_parser.py:169 | `str.strip()` gives a string with no whitespace at either end |
| Text.StripRemovesSpace | aos_parser.py:169 | `strip()` removes whitespace only, and only from the ends |
| Text.RemoveChar | nttbp-summarize-functinos.py:198 | `.replace('"', '')` leaves no occurrence of the character and adds no new characters |
| Text.Lower | nttbp-summarize.py:437 | `str.lower()` keeps the length |
| Text.LowerIdempotent | nttbp-summarize.py:437 | lowering twice is lowering once |
| Text.IndexOf | aos_parser.py:173 | `list.index(x)` is the first position holding x; None (the ValueError) iff x is absent |
| Text.Split | aos_parser.py:130 | `s.split(c)` gives at least one part, and no part contains c |
| Text.JoinSplit | aos_parser.py:269 | joining the parts of a split with the separator gives the string back |
| Text.SplitJoin | aos_parser.py:269 | splitting a join gives the parts back when no part holds the separator |
| Text.FirstWord | aos_parser.py:130 | `s.split(" ")[0]` is the prefix before the first space, and holds no space |
| Text.NatToStr | ap-monitor-list.py:48 | `str(n)` is decimal digits, without leading zeros, whose value is n |
| Text.NatToStrInjective | ap-monitor-list.py:48 | different numbers have different decimal forms |
| Text.ParseInt | nttbp-summarize-functinos.py:359 | `int(s)` accepts only a stripped, signed run of digits (underscores only between digits); None is the ValueError |
| Text.ParseIntDigits | nttbp-summarize-functinos.py:359 | `int()` reads a plain run of decimal digits as its value |
| Text.ParseIntNatToStr | nttbp-summarize-functinos.py:359 | `int(str(n)) == n` |
| Counting.Filter | ap2xls.py:81-85 | a filtered list holds only elements of the input that pass the test |
| Counting.FilterCount | ap2xls.py:81-85 | a filtered list is as long as the number of passing elements |
| Counting.FilterMembers | ap2xls.py:81-85 | an element is kept iff it is in the input and passes the test |
| Counting.CountIf | ap-monitor-list.py:165-185 | a count never exceeds the length of the list |
| Counting.CountConcat | ap-monitor-list.py:165-185 | counting over two lists in turn adds their counts |
| Counting.CountPerm | ap-monitor-list.py:158-185 | reordering a list, as a sort does, changes no count |
| Counting.CountMono | ap-monitor-list.py:165-185 | a stricter test counts no more |
| Counting.CountSplit | ap-monitor-list.py:165-185 | the count of a test that is the disjoint union of two tests is the sum of their counts |
| Tally.Ones | ap2xls.py:90-93 | a plain counter is a tally of weight one per item |
| Tally.TallySnoc | radar-stats.py:45-48 | one more `d[k] += w` raises k's tally and the total by w |
| Tally.TallyMeaning | radar-stats.py:45-48 | each key's tally is the total weight of its items, and the dictionary's keys are exactly the keys tallied |
| Tally.TallyTotal | radar-stats.py:45-48 | summed over the keys in first-seen order, the tallies give the total weight |
| Tally.CountTotal | ap2xls.py:90-93 | the counts of a counter add up to the number of items |
| Tally.CountMeaning | ap2xls.py:90-93 | a plain counter holds, for each key, the number of its occurrences |
| KeepMax.Put | retry_rates.py:52-58 | one keep-the-best update leaves the dictionary with exactly its old keys plus the new one |
| KeepMax.PutAllKeys | retry_rates.py:52-58 | the dictionary holds exactly the keys seen |
| KeepMax.PutAllKept | retry_rates.py:52-58 | each key holds the entry its tie rule keeps: the best score, on ties the later entry (`<` ... `continue`) or the earlier one (`>` replaces, as in ap-monitor-list-sum.py:178) |
| KeepMax.FirstSeenKeys | retry_rates.py:52-58 | the keys in dictionary order are exactly the keys seen, each once |
| KeepMax.AssignSnoc | arm-nbrs.py:63-64 | `d[k] = v` over one more pair updates k only |
| KeepMax.AssignLast | arm-nbrs.py:63-64 | a key holds the value of its last pair |
| Uniq.UniqBy | dp-ses-toprate.py:18-25 | the loop of `uniq` equals the `Uniq` specification |
| Uniq.UniqPositions | dp-ses-toprate.py:18-25 | `uniq` keeps a subsequence: exactly the first element of each key, in order |
| Uniq.UniqDistinct | dp-ses-toprate.py:18-25 | no two kept rows share a key |
| Uniq.UniqKeys | dp-ses-toprate.py:18-25 | every key of the input is kept |
| Uniq.UniqHead | dp-ses-toprate.py:18-25 | the first row, the table's header, is always kept, and kept first |
| Uniq.UniqSize | dp-ses-toprate.py:18-25 | `uniq` keeps as many rows as there are distinct keys |
| Results.GatherStep | radar-stats.py:42-44 | one more item appends its value, or turns the loop into that item's error |
| Results.GatherStop | radar-stats.py:42-44 | once an item raises, the whole loop raises its error |
| Results.GatherFirst | radar-stats.py:42-44 | the loop succeeds iff every item does, with one value per item in order; otherwise it fails with the error of the first item that fails |
| StableSort.InsertPerm | ap-monitor-list.py:158 | insertion adds exactly the new element |
| StableSort.InsertSorted | ap-monitor-list.py:158 | insertion keeps a list sorted by descending key |
| StableSort.InsertStable | ap-monitor-list.py:158 | insertion puts the new element after the elements of its own key |
| StableSort.SortDescProps | ap-monitor-list.py:158 | `sort(key=..., reverse=True)` is sorted by descending key, a permutation, and stable |
| StableSort.SortBy | ap-monitor-list.py:158 | the insertion sort computes the specification `SortDesc` |
| Sorting.LexTotal | nttbp-apsys.py:452 | Python's string order is total |
| Sorting.LexAntisymmetric | nttbp-apsys.py:452 | Python's string order is antisymmetric |
| Sorting.LexTransitive | nttbp-apsys.py:452 | Python's string order is transitive |
| Sorting.LeastExists | nttbp-apsys.py:452 | a finite non-empty set of strings has a least element |
| Sorting.SortSet | nttbp-apsys.py:452 | `sorted(s)` lists every element of the set once, in ascending order |
| Sorting.SortedOfUnique | nttbp-apsys.py:452 | there is only one sorted list of a set |
| Sorting.InsertAscPerm | arm-state.py:257 | insertion adds exactly the new element |
| Sorting.InsertAscSorted | arm-state.py:257 | insertion keeps a list sorted by ascending key |
| Sorting.InsertAscStable | arm-state.py:257 | insertion puts the new element after the elements of its own key |
| Sorting.SortAscProps | arm-state.py:257 | `sorted(..., key=...)` is sorted by ascending key, a permutation, and stable |
| Sorting.SortAscBy | arm-state.py:257 | the insertion sort computes the specification `SortAsc` |
| Ap2Xls.Select | ap2xls.py:81-85 | the filter loop computes the header followed by the rows whose name matches the pattern |
| Ap2Xls.CountModels | ap2xls.py:90-93 | the tally loop raises IndexError exactly when a kept row has no model column, and otherwise builds the counter of the model column |
| Ap2Xls.Run | ap2xls.py:69-93 | the script, from the table lookup to the model tally, computes the specification `Ap2Xls`: no table, a short row or the tally |
| Ap2Xls.SelectedMeaning | ap2xls.py:81-85 | the header is kept first; every other kept row is a data row whose name matches; every data row whose name matches is kept |
| Ap2Xls.ApsMeaning | ap2xls.py:75-85 | after `uniq` and the filter: the header is kept first, every kept row is a row of the AP database whose name matches, and every first row of a matching name is kept |
| Ap2Xls.ApsDistinct | ap2xls.py:75-85 | no two kept rows share an AP name |
| Ap2Xls.SelectedDistinct | ap2xls.py:81-85 | filtering keeps rows with distinct names distinct |
| Ap2Xls.ModelCounts | ap2xls.py:90-96 | `apmodelctr[m]` is the number of kept APs of model m, and the counts add up to the number of kept APs |
| Ap2XlsNumSta.LastColon | ap2xls_numsta.py:112 | the position found holds a ':' and no ':' follows it; no position is found only when the cell holds no ':' |
| Ap2XlsNumSta.ParseRadio | ap2xls_numsta.py:112-137 | a radio cell that matches gives a non-empty PHY, a channel, an EIRP of the pattern's classes and a digit client count |
| Ap2XlsNumSta.ParseRadioText | ap2xls_numsta.py:112-132 | every cell of the form `phy:ch/eirp/max/sta` is matched and read back as its groups |
| Ap2XlsNumSta.ParseRadioShape | ap2xls_numsta.py:112-132 | every cell that matches has that form: the match is exact in both directions |
| Ap2XlsNumSta.RadioCells | ap2xls_numsta.py:113-137 | each radio contributes four cells to the table |
| Ap2XlsNumSta.FloorMeaning | ap2xls_numsta.py:145-149 | the floor of a group `GTS` + two digits is those digits; any other group falls under 'n/a', which is never a real floor |
| Ap2XlsNumSta.ActRow | ap2xls_numsta.py:140 | the row appended has the nine cells of the header and starts with the AP name |
| Ap2XlsNumSta.ChannelStep | ap2xls_numsta.py:111-119 | one more AP bumps `r0chctr` by one and `r0chsta` by its clients on its radio 0 channel when its cell matches, and changes neither otherwise |
| Ap2XlsNumSta.FloorStep | ap2xls_numsta.py:140-152 | one more AP appends its row and bumps its floor by the clients of both radios |
| Ap2XlsNumSta.ActStatsSnoc | ap2xls_numsta.py:107-152 | the four results of the loop after one more AP, field by field |
| Ap2XlsNumSta.Record | ap2xls_numsta.py:111-152 | the loop body turns the statistics of the APs before it into those of one more AP |
| Ap2XlsNumSta.Collect | ap2xls_numsta.py:99-152 | the loop over the active APs computes the specification `ActStats` |
| Ap2XlsNumSta.Run | ap2xls_numsta.py:57-152 | the script, from the table lookups to the loop, computes the specification `NumSta`, including each early exit (missing table, missing column, short row) |
| Ap2XlsNumSta.ActRowsMeaning | ap2xls_numsta.py:99-140 | `ap_act_tbl` is the header then one nine-cell row per AP, named as the AP; an AP whose radio cell does not match shows empty PHY, channel and EIRP and '0' clients for that radio |
| Ap2XlsNumSta.ChannelMeaning | ap2xls_numsta.py:103-119 | `r0chctr[ch]` is the number of APs whose radio 0 is on channel ch, `r0chsta[ch]` the sum of their radio 0 clients, and the counts add up to the number of APs whose radio 0 cell matches |
| Ap2XlsNumSta.ChannelPairsMeaning | ap2xls_numsta.py:111-119 | the (channel, clients) pairs counted are those of the APs whose radio 0 cell matches, one per such AP, in order |
| Ap2XlsNumSta.FloorMeaningOf | ap2xls_numsta.py:145-152 | `usersperfloor[fl]` is the sum of the clients of both radios of the APs on floor fl, and the floors add up to the clients of every AP |
| ApMonitor.ApNamesLast | ap-monitor-list.py:117-120 | `bss2apn[b]` is the AP name of the last bss-table row of BSSID b, and '' when no row has it |
| ApMonitor.ReadNames | ap-monitor-list.py:117-120 | the loop filling `bss2apn` computes the specification `ApNames`, failing on a row without a ninth cell |
| ApMonitor.Run | ap-monitor-list.py:107-227 | with the rows read as lists, as intended, the script computes the specification `ApMonitorList`: the table lookup, the row loop, the sort and both sections, with each early exit |
| ApMonitor.AsWrittenNeverReports | ap-monitor-list.py:129-195 | as written, the script never completes: it raises TypeError at the first AP row whose SNR `int()` accepts, and with no such row it keeps no entry and has no own AP |
| ApMonitor.AnalyseCounts | ap-monitor-list.py:166-216 | `valid_tot` and `intf_tot` are the numbers of valid base APs and of interfering APs on 5 GHz; `valid_coch_snr10` and `intf_coch_snr10` count those of them, not own, that share a channel with the own AP at SNR >= 10; neither co-channel count exceeds its total |
| ApMonitor.SectionCounts | ap-monitor-list.py:166-216 | a section's length and red-line count are counts over the entries, whatever their order |
| ApMonitor.AnalyseLines | ap-monitor-list.py:158-220 | both sections list their APs by SNR, largest first; the valid section has a green line exactly for the own BSSID, and each section a red line exactly for an AP sharing a channel with the own channel at SNR >= 10 and a yellow line for one below |
| ApMonitor.SortedEntries | ap-monitor-list.py:158 | the sort orders the entries by SNR, largest first, and keeps every entry |
| ApMonitor.ValidSection | ap-monitor-list.py:168-187 | the valid section of a sorted list is in SNR order and each line is coloured by the rule of lines 178-187 |
| ApMonitor.IntfSection | ap-monitor-list.py:203-220 | the interfering section of a sorted list is in SNR order and each line is coloured by the rule of lines 213-220 |
| ApMonitor.NoOwnOnBuiltTable | ap-monitor-list.py:150-195 | on the `chsets` table the loops build, '' is no label, so an AP list without an own 5 GHz BSSID that reaches the NameError on `myapn` has no valid base AP |
| ApMonitor.NoOwnMeansNoValid | ap-monitor-list.py:150-195 | without an own 5 GHz BSSID, `mych` stays '', which `chsets` does not hold, so the valid section raises KeyError on its first valid base AP; the NameError on `myapn` is reached only when there is none |
| ApMonitor.NoValidWithoutOwn | ap-monitor-list.py:168-180 | with `mych` '' the valid section completes only on a list with no valid base AP that is not own |
| ApMonitorSum.FileResults | ap-monitor-list-sum.py:167-169 | with the rows read as lists, as intended, each file gives its own summary, in order |
| ApMonitorSum.CountFile | ap-monitor-list-sum.py:135-146 | the counting loop computes the co-channel count and the 3rd-party list of the specification `Count` in one pass |
| ApMonitorSum.CochStep | ap-monitor-list-sum.py:138-141 | the co-channel test on one entry raises KeyError exactly when the section step does, and otherwise counts the red lines of the section so far |
| ApMonitorSum.ParseFile | ap-monitor-list-sum.py:86-146 | with the rows read as lists, as intended, `parse_aplist` computes the specification `FileSummary` of one file |
| ApMonitorSum.MergeOne | ap-monitor-list-sum.py:173-179 | one sighting adds a new BSSID at the end of `intf_all`, or replaces a known one only when its SNR is larger |
| ApMonitorSum.MergeFile | ap-monitor-list-sum.py:173-179 | the loop keeps `intf_all` equal to the keep-the-strongest dictionary of all sightings so far, keys in insertion order |
| ApMonitorSum.SumFiles | ap-monitor-list-sum.py:165-179 | with the rows read as lists, as intended, the loop over the files fails exactly when some file does, with the first failure, and otherwise gives the total co-channel count and the merged `intf_all` |
| ApMonitorSum.Run | ap-monitor-list-sum.py:165-187 | with the rows read as lists, as intended, the script computes the specification `ApMonitorListSum` |
| ApMonitorSum.SumStep | ap-monitor-list-sum.py:167-179 | one more file: its failure, or its summary appended, its count added and its sightings merged |
| ApMonitorSum.CountFails | ap-monitor-list-sum.py:135-146 | a file's count raises KeyError exactly when a candidate's channel, or the own channel, is missing from `chsets` |
| ApMonitorSum.CountCoch | ap-monitor-list-sum.py:135-146 | a file's co-channel count is the number of its co-channel APs |
| ApMonitorSum.CountThirdParty | ap-monitor-list-sum.py:135-146 | a file's 3rd-party list holds exactly its strong non-valid APs, and its length is their number |
| ApMonitorSum.ReportThirdParty | ap-monitor-list-sum.py:165-187 | every 3rd-party BSSID seen in any file is listed, and only those, each once, with its strongest sighting (the first of equal SNR), by that SNR, largest first |
| ApMonitorSum.ReportOrder | ap-monitor-list-sum.py:185 | the sorted first-seen keys are the dictionary's keys, each once, by SNR, largest first |
| ApMonitorSum.FileSummaryAsWritten | ap-monitor-list-sum.py:100-125 | as written, `parse_aplist` fails exactly when the file has no AP list or one of its 5 GHz rows has an SNR that `int()` accepts, and then with the TypeError of the assignment into the tuple row; a file that passes contributes no entry and a co-channel count of 0 |
| ApMonitorSum.AsWrittenReportsNothing | ap-monitor-list-sum.py:165-187 | as written, the script fails exactly when some file has no AP list or a 5 GHz row with an integer SNR, and otherwise reports a co-channel total of 0 and no 3rd-party AP |
| ApMonitorSum.DistinctLength | ap-monitor-list-sum.py:182 | a list of distinct keys that are exactly a dictionary's keys is as long as the dictionary (`len(intf_all)`) |
| Channels.IsIntf | ap-monitor-list.py:78-82 | `isIntf` raises KeyError exactly when one of the two labels is missing from the table |
| Channels.IntfSymmetric | ap-monitor-list.py:78-82 | interference does not depend on the order of the two labels |
| Channels.BuildChsets | ap-monitor-list.py:38-74 | the `chsets` loops map every 20 MHz channel to itself, each 40 MHz pair under both its labels, each 80 MHz block (and 160 MHz block, as in this file but not in arm-state.py:51-70) under the label of each of its channels, no label to an empty set, and hold no other label |
| Channels.BuildFrom | arm-state.py:51-70 | the same loops over any channel lists whose blocks do not overlap, with or without the 160 MHz loop; the table's labels are exactly those the loops write |
| Channels.BuiltLookups | ap-monitor-list.py:38-82 | in the built `chsets`, `isIntf` raises KeyError exactly when a label is not one the loops write, and '' (an unset `mych`) is never one |
| Channels.Add20 | ap-monitor-list.py:45-46 | the 20 MHz loop maps each listed channel to itself, leaves every label with a suffix as it was, and adds exactly the listed channels' labels |
| Channels.Add40 | ap-monitor-list.py:47-50 | the 40 MHz loop stores each pair under `ch+` and `ch+4-`, keeping the 20 MHz entries and adding no other label |
| Channels.Put40 | ap-monitor-list.py:48-50 | one pass of the 40 MHz loop adds pair i under both labels and keeps what was there before |
| Channels.AddWide | ap-monitor-list.py:51-74 | the 80 MHz (`E`) or 160 MHz (`S`) loop stores each block under the label of each of its channels, keeping the 20 and 40 MHz entries and, for 160 MHz, the 80 MHz ones, and adds exactly the labels of its blocks' channels |
| Channels.WideMapKeys | ap-monitor-list.py:51-74 | a wide loop adds to the table exactly the labels of the channels of its blocks |
| Channels.PutWide | ap-monitor-list.py:55-58 | one assignment of the wide loop stores block i under the label of its channel j, disturbing no entry written before |
| Channels.NonEmptyReflexive | ap-monitor-list.py:78-82 | in a table with no empty set every label interferes with itself |
| Channels.Intf20 | ap-monitor-list.py:78-82 | a 20 MHz channel interferes with a label exactly when the label's set holds it |
| Channels.Intf40 | ap-monitor-list.py:47-50 | the two labels of a 40 MHz pair interfere with each other and cover both of its channels |
| Channels.Cli40Facts | cli-monitor-list.py:37-89 | every 40 MHz label of the literal covers a channel; the irregular '64+' and '108-' cover 60/64 and 104/108 |
| Channels.CliLiteralNonEmpty | cli-monitor-list.py:37-89 | no label of the literal maps to an empty set |
| Channels.CliLiteralIrregular | cli-monitor-list.py:45-49 | '64+' covers 60 and 64, '108-' covers 104 and 108 |
| Channels.CliLiteral160 | cli-monitor-list.py:88 | '60S' covers the eight channels 36 to 64 |
| Channels.CliChset | cli-monitor-list.py:37-92 | the table is the literal with every 20 MHz channel added as itself, and no label maps to an empty set |
| Channels.SumChset | ap-monitor-list-sum.py:22-77 | the table is the literal with every 20 MHz channel added as itself |
| Channels.SumLiteralFacts | ap-monitor-list-sum.py:32-36 | '64+' and '108-' map to the empty set |
| Channels.EmptyLabels | ap-monitor-list-sum.py:80-83 | a label mapped to the empty set interferes with nothing, itself included |
| CliMonitor.OwnBssids | cli-monitor-list.py:133-136 | `mybss` holds exactly column 0 of the bss-table rows |
| CliMonitor.ReadOwnBssids | cli-monitor-list.py:133-136 | the loop filling `mybss` computes `OwnBssids`, failing on an empty row |
| CliMonitor.Run | cli-monitor-list.py:123-255 | the script computes the specification `CliMonitorList`: the lookups, the row loop, the sort and the three sections, with each early exit |
| CliMonitor.ConnectedNeverFails | cli-monitor-list.py:181-191 | the connected section never raises: it looks no label up |
| CliMonitor.SectionsLines | cli-monitor-list.py:173-255 | every section lists its stations by SNR, largest first, and only those its test admits; connected lines are plain, the others red at SNR >= 10 and yellow below when they share a channel with `mych`, plain otherwise |
| CliMonitor.ValidSplit | cli-monitor-list.py:181-222 | every valid 5 GHz station is printed in exactly one of the first two sections: the connected section holds the connected ones, the second all others |
| CliMonitor.SectionsFail | cli-monitor-list.py:205-255 | the sections raise KeyError exactly when a station of the second or third section has a label, or `mych` is a label, the table lacks |
| MonitorRows.DigitsEnd | ap-monitor-list.py:134 | the `\d+` run from a position is all digits and maximal |
| MonitorRows.WordEndRun | ap-monitor-list.py:134 | the `\w+` run (`[\w-]+` in cli-monitor-list.py:150) is all word characters and maximal |
| MonitorRows.Search | ap-monitor-list.py:134 | `re.search` finds a match at the leftmost position that has one, and reports none only when no position does |
| MonitorRows.MatchAtText | ap-monitor-list.py:134-138 | a match spells out `/` + channel + `/` + width + `/` + PHY type at its position |
| MonitorRows.MatchAtShape | ap-monitor-list.py:134-138 | the width ends in "MHz" and the PHY type is a non-empty word |
| MonitorRows.MatchAtLabel | ap-monitor-list.py:134-136 | the channel label is the primary channel's digits followed by at most one bonding letter |
| MonitorRows.MatchAtPrimary | ap-monitor-list.py:139 | `pch` is `int()` of the label with its bonding letters removed |
| MonitorRows.CollectFail | ap-monitor-list.py:129-146 | with the rows read as lists, as intended, the loop stops (`sys.exit(1)`) exactly when some row has integer SNR and RSSI but no channel match |
| MonitorRows.CollectParsed | ap-monitor-list.py:129-149 | with the rows read as lists, as intended, the entries appended are exactly the rows that parse; a row whose SNR or RSSI is no integer is skipped |
| MonitorRows.TypeErrorAt | ap-monitor-list.py:129-143 | as written, the loop raises TypeError at the first row that passes the filters and whose SNR `int()` accepts, every row before it being skipped; there is none exactly when no row does |
| MonitorRows.TupleLoopAppendsNothing | ap-monitor-list.py:129-152 | as written, a loop that raises no TypeError has skipped every row: no entry is appended and `mych` stays '' |
| MonitorRows.TupleRowExample | ap-monitor-list.py:132 | on the row `5GHz/36+/40MHz/VHT` with SNR 30 both ap-list scripts raise TypeError as written, while the intended loop keeps it as one entry of SNR 30 |
| MonitorRows.FirstOwn | ap-monitor-list.py:150-152 | the own entry is one of the entries and passes the script's test; there is none exactly when no entry passes |
| MonitorRows.FirstOwnFirst | ap-monitor-list.py:150-152 | `mych` is taken from the first entry that passes the test |
| MonitorRows.OwnStep | ap-monitor-list.py:149-152 | one more entry keeps `mych` the label of the first passing entry so far |
| MonitorRows.CollectOwn | ap-monitor-list.py:129-152 | with the rows read as lists, as intended, the parsing loop gives the entries of `Collect` and the first own entry, and stops exactly when `Collect` does |
| MonitorRows.ParseEntries | ap-monitor-list.py:129-152 | with the rows read as lists, as intended, reading a listing gives the specification `Entries` and its first own entry |
| MonitorSections.Section | ap-monitor-list.py:168-187 | a section prints at most one line per entry |
| MonitorSections.SectionFail | ap-monitor-list.py:168-187 | a section raises KeyError exactly when some kept entry's label, or `mych`, is missing from the table |
| MonitorSections.SectionLines | ap-monitor-list.py:168-187 | a line is printed for every kept entry, in order, with its own colour and AP name |
| MonitorSections.SectionKept | ap-monitor-list.py:168-187 | every line of a section is a kept entry, coloured by the rule of its section |
| MonitorSections.SectionRed | ap-monitor-list.py:180-183 | the count of red lines (`valid_coch_snr10`) is the count of red entries |
| MonitorSections.SectionPerm | ap-monitor-list.py:158 | whether a section raises, how many lines it prints and how many are red do not depend on the order of the entries, so the sort changes none of them |
| MonitorSections.SectionSorted | ap-monitor-list.py:158-187 | a section of a list sorted by SNR, largest first, is sorted the same way |
| MonitorSections.Render | ap-monitor-list.py:166-187 | the section loop numbers and colours each kept entry and counts the red ones, as `Section` specifies |
| MonitorSections.SectionNone | ap-monitor-list.py:168-187 | once a prefix raises, the whole section raises |
| DifRadioStats.ReplaceStr | dif-radio-stats.py:57-62 | `replace_str` writes the new text over the string from `pos`, padding a shorter string with spaces, and keeps every other character |
| DifRadioStats.PromptSearch | dif-radio-stats.py:107 | `re.search(re_prompt, l)` finds the leftmost prompt, and none only when no position starts one |
| DifRadioStats.CounterLine | dif-radio-stats.py:152-155 | a counter line is a parameter, two blanks and a run of digits to the end of the line, and the value is `int()` of those digits |
| DifRadioStats.ParamFrom | dif-radio-stats.py:132 | the lazy parameter group takes the shortest run of parameter characters after which the rest of the pattern matches |
| DifRadioStats.RunsFrom | dif-radio-stats.py:137-139 | `re.finditer` reports the runs of digits after the parameter left to right, each ending past the parameter |
| DifRadioStats.RightAlign | dif-radio-stats.py:167 | `f'{s:>12}'` is the text right-aligned in twelve characters, never cut |
| DifRadioStats.ReadLineRuns | dif-radio-stats.py:137-146 | the inner loop stores each number of a multi-column line and writes its difference after it, as `ReadRuns` specifies |
| DifRadioStats.Feed | dif-radio-stats.py:96-171 | the body of the main loop computes the specification `Step` on the command, the skip count, the counters and the printed lines |
| DifRadioStats.Run | dif-radio-stats.py:85-176 | the main loop prints the lines of the specification `Steps` |
| DifRadioStatsFacts.StepsOk | dif-radio-stats.py:140-162 | after any run the stored counters are consistent with the readings that produced them |
| DifRadioStatsFacts.ShownDiffs | dif-radio-stats.py:140-162 | every counter holds its latest reading, and every difference shown is a reading minus the previous reading of that counter, shown only when that reading was nonzero |
| DifRadioStatsFacts.ReadRunsStores | dif-radio-stats.py:137-144 | the numbers of a multi-column line are stored under their positions 0, 1, 2, ... |
| DifRadioStatsFacts.ReadRunsKeeps | dif-radio-stats.py:137-146 | a difference is written only after the parameter, so the line keeps its parameter |
| DifRadioStatsFacts.StepsCmd | dif-radio-stats.py:107-122 | the tracked command is always empty or a supported command that is not 'show clock', and at most two lines are passed through |
| DifRadioStatsFacts.PromptSetsCmd | dif-radio-stats.py:107-122 | a prompt ends the previous command: the new one is the text after the prompt if supported, else none, and no counter changes |
| DifRadioStatsFacts.ClockPassThrough | dif-radio-stats.py:97-115 | a 'show clock' prompt line and the two lines after it are printed as they are, and nothing else changes |
| DifRadioStatsFacts.StepAppends | dif-radio-stats.py:96-176 | every line adds its printed lines after those already printed |
| DifRadioStatsFacts.OtherLinesPlain | dif-radio-stats.py:96-176 | no line other than a counter line is printed in bright red |
| DifRadioStatsFacts.AlertIff | dif-radio-stats.py:152-167 | a line is printed in bright red exactly when it is a counter line whose parameter mentions error, fail, drop, reject or timeout and whose counter, already nonzero, went up |
| DifRadioStatsFacts.CounterLineOf | dif-radio-stats.py:152-155 | the counter pattern reads back any parameter and number it is given |
| DifRadioStatsFacts.RunsOfCols | dif-radio-stats.py:137-139 | the runs of digits after the parameter are the numbers of the line, in order |
| DifRadioStatsFacts.MultiLineOf | dif-radio-stats.py:132-139 | the multi-column pattern reads back a parameter followed by two or more blank-separated numbers, when the parameter does not itself end in a blank or a digit |
| DpMsgq.BlankEnd | dp-msgq.py:38 | the ` +` run from a position is all blanks and maximal |
| DpMsgq.OpcodeEnd | dp-msgq.py:45 | the `[\w/]+` run from a position is all opcode characters and maximal |
| DpMsgq.CpuLine | dp-msgq.py:38-40 | a 'Cpu-->' line gives a non-empty run of digits |
| DpMsgq.QueueLine | dp-msgq.py:45-48 | a message-queue line gives a non-empty opcode that the line starts with |
| DpMsgq.DescEnd | dp-msgq.py:64 | the lazy description group ends at the first column, after its description characters, where the rest of the pattern matches |
| DpMsgq.PapiLine | dp-msgq.py:64-68 | a papi line gives its cpu cell (columns 2-3), a non-empty description the line holds from column 15, and the value the rest of the pattern reads |
| DpMsgq.FieldsFrom | dp-msgq.py:50-52 | `re.finditer(' [0-9a-f]{8}')` gives, left to right and at least nine columns apart, the column and hexadecimal value of each field |
| DpMsgq.FieldsFound | dp-msgq.py:50 | the scan misses no field that starts at or after where it starts |
| DpMsgq.QueueLineHasField | dp-msgq.py:45-50 | a message-queue line has at least one field: the one after the opcode |
| DpMsgq.Spaces | dp-msgq.py:58 | `' ' * n` is n blanks, none for a negative n |
| DpMsgq.Signed | dp-msgq.py:71 | `f'{d:+}'` starts with a sign and ends with a digit |
| DpMsgq.StepsStop | dp-msgq.py:36-76 | once a line has raised (a queue line before any 'Cpu-->' line leaves `cpu` unbound), later lines change nothing |
| DpMsgq.ReadLineFields | dp-msgq.py:49-54 | the inner `finditer` loop reads each field into the counters and records its difference, as `ReadFields` specifies |
| DpMsgq.Align | dp-msgq.py:56-59 | the `Ses` loop builds the aligned difference line `Aligned` |
| DpMsgq.Feed | dp-msgq.py:37-76 | the body of the main loop computes the specification `Step` on `cpu`, the counters and the output, or its NameError |
| DpMsgq.Run | dp-msgq.py:33-76 | the main loop computes the specification `MsgQ` |
| DpMsgqFacts.StepsOk | dp-msgq.py:49-70 | after any run the stored counters are consistent with the readings that produced them |
| DpMsgqFacts.Telescope | dp-msgq.py:53-54 | in a consistent history the differences reported for a counter add up to its latest reading |
| DpMsgqFacts.DiffsAddUp | dp-msgq.py:49-70 | every counter holds its latest reading, every reported difference is a reading minus the previous reading (0 before the first), and so the differences of a counter add up to its latest reading |
| DpMsgqFacts.ReadFieldsOther | dp-msgq.py:50-54 | reading fields at other columns leaves a counter alone |
| DpMsgqFacts.ReadFieldsMeaning | dp-msgq.py:50-54 | with distinct columns, the difference of each field is its value minus what its counter held before the line, and the counter then holds the value |
| DpMsgqFacts.FieldsDiffs | dp-msgq.py:50-54 | the fields of a line are fields of the text, and the difference of each is its value minus what its counter held before |
| DpMsgqFacts.FieldsIncreasing | dp-msgq.py:50 | the fields of a line come at increasing columns, so `diff` keeps one entry per field |
| DpMsgqFacts.Placed | dp-msgq.py:56-59 | difference i is printed signed and right-aligned in at least eight characters, from its field's column or, when the previous difference already reaches past that column, right after it |
| DpMsgqFacts.PutShape | dp-msgq.py:58-59 | one step of the `Ses` loop keeps the text so far and starts the difference at its column or right after the text |
| DpMsgqFacts.FieldShape | dp-msgq.py:59 | `f'{d:>+8}'` is the signed difference with blanks before it up to eight characters |
| DpMsgqFacts.AlignedWidth | dp-msgq.py:56-59 | when the columns are at least eight apart and no difference needs more than eight characters, the line ends eight characters after the last column |
| DpMsgqFacts.UnderColumns | dp-msgq.py:56-59 | under the same conditions every difference sits exactly under its field |
| DpMsgqFacts.SignedReadsBack | dp-msgq.py:71 | `int(f'{d:+}')` is d |
| DpMsgqFacts.FieldReadsBack | dp-msgq.py:59 | `int(f'{d:>+8}')` is d: a printed difference reads back |
| DpMsgqFacts.CpuLineOf | dp-msgq.py:38-40 | the 'Cpu-->' pattern reads back the number of any line of its form |
| DpMsgqFacts.QueueLineOf | dp-msgq.py:45-48 | the message-queue pattern reads back the opcode of any line of its form |
| DpMsgqFacts.NoEarlyTail | dp-msgq.py:64 | before the end of a description that does not end in a blank, the rest of the pattern cannot match |
| DpMsgqFacts.PapiLineAt | dp-msgq.py:64-68 | the papi pattern on a line given by the columns where its parts end reads those parts |
| DpMsgqFacts.PapiLineOf | dp-msgq.py:64-68 | the papi pattern reads back the cpu cell, description and value of any line of its form |
| DpSesTopRate.AppIdMeaning | dp-ses-toprate.py:92 | `r[idx_appid][:16].rstrip()` is a prefix of the cell of at most 16 characters, not ending in whitespace, and only whitespace is dropped from the first 16 characters |
| DpSesTopRate.Column | dp-ses-toprate.py:78-82 | `index` gives a position holding the column name, or ValueError exactly when the header lacks it |
| DpSesTopRate.RowKept | dp-ses-toprate.py:84-92 | a row read without error has a hexadecimal TAge; it is kept exactly when TAge is above 5 and the protocol is not GRE ('47'), and the kept session carries the row's own addresses, protocol, TAge, byte count, flags and AppID |
| DpSesTopRate.Record | dp-ses-toprate.py:92-103 | one kept row is appended to `tbl` and the running totals become those of the longer table |
| DpSesTopRate.Scan | dp-ses-toprate.py:84-103 | the main loop fails with the error of the first row that raises, and otherwise gives the kept sessions and their totals |
| DpSesTopRate.Run | dp-ses-toprate.py:49-103 | the script, from the table lookups to the main loop, computes the specification `TopRates`, with each early exit |
| DpSesTopRate.TopRatesOk | dp-ses-toprate.py:49-103 | on success a session table with a header was found, its columns resolved, every row read, and the kept rows are those of the loop |
| DpSesTopRate.ReportMeaning | dp-ses-toprate.py:84-103 | on success every data row is read without error, and a session is kept exactly when some row is read as it |
| DpSesTopUser.SsidMeaning | dp-ses-topuser.py:74-78 | the SSID is the text before the first '/' when only word characters and dashes precede it, and "n/a" when no '/' is so preceded |
| DpSesTopUser.UserPairs | dp-ses-topuser.py:70-81 | each user-table row gives its IP with its name, AP and SSID |
| DpSesTopUser.FindPair | dp-ses-topuser.py:91 | `re.search(r'(\d+)/(\d+)')` finds the leftmost position that starts a match, and none only when no position does |
| DpSesTopUser.SessionCountMeaning | dp-ses-topuser.py:91-93 | there is a count exactly when some digit is followed by '/' and a digit; the count is then the value of the whole run of digits ending at the first such '/' |
| DpSesTopUser.RowKept | dp-ses-topuser.py:88-94 | a row read without error is kept exactly when column 2 does not contain '2700/' and column 7 holds a count, and then it carries the row's IP, MAC and that count |
| DpSesTopUser.BuildUsers | dp-ses-topuser.py:67-81 | the loop filling the three IP maps computes `UserMap`, failing on a short row |
| DpSesTopUser.UsersStep | dp-ses-topuser.py:79-81 | one more user-table row sets the entry of its IP and no other |
| DpSesTopUser.Scan | dp-ses-topuser.py:87-94 | the loop filling `tbl` fails with the error of the first row that raises, and otherwise keeps the talkers of the kept rows |
| DpSesTopUser.Rank | dp-ses-topuser.py:97 | `sorted(tbl, key=..., reverse=True)[:200]` is the specification `Top` |
| DpSesTopUser.Run | dp-ses-topuser.py:47-97 | the script computes the specification `TopUser`, with each early exit |
| DpSesTopUser.L2Users | dp-ses-topuser.py:58-61 | the L2 user count is the number of distinct first cells of the datapath user table, less the header's |
| DpSesTopUser.UsersOk | dp-ses-topuser.py:59-81 | on success the IP map is built from the data rows of the de-duplicated user table |
| DpSesTopUser.UsersFirst | dp-ses-topuser.py:59-81 | an IP of the user table maps to the user of its first data row, the one `uniq` keeps |
| DpSesTopUser.UsersAbsent | dp-ses-topuser.py:67-99 | an IP of no data row of the user table maps to empty name, AP and SSID, the `defaultdict` default |
| DpSesTopUser.TalkersMeaning | dp-ses-topuser.py:87-94 | on success every datapath row after the header is read without error (over the table before `uniq`), and `tbl` holds one talker per kept row, in table order, and every kept row |
| DpSesTopUser.TopMeaning | dp-ses-topuser.py:97 | the listing is the talkers sorted by session count, largest first, ties in table order, cut at 200: as many rows as talkers up to 200, each a talker, and no talker left out has more sessions than one listed |
| DpSesTopUser.TopOfSorted | dp-ses-topuser.py:97 | the first n of a stable descending sort are sorted, drawn from the input, stable per key, and no element left out ranks above them |
| DpSesUdp.ReadNumbers | dp-ses-udp.py:86-88 | the four numbers are read, in order and before any test: TAge in hexadecimal, protocol, source and destination port |
| DpSesUdp.Finish | dp-ses-udp.py:98-105 | a wanted row reads its byte count and flags and becomes a session with the row's own values, a client session when its source port is a Teams port |
| DpSesUdp.RowKept | dp-ses-udp.py:85-105 | a row read without error had its four numbers read; it is kept exactly when it passes the filters of lines 89-96, and its destination counts as a client exactly when the source port is a Teams port |
| DpSesUdp.ClientsSnoc | dp-ses-udp.py:98-99 | one more kept session adds its destination to `uniq_ip` exactly when it is a client session |
| DpSesUdp.Record | dp-ses-udp.py:98-116 | one kept session extends `tbl`, `tbl_m`, the counters and `uniq_ip` to those of the longer list |
| DpSesUdp.Scan | dp-ses-udp.py:85-116 | the main loop fails with the error of the first row that raises, and otherwise gives the totals and client set of the kept sessions |
| DpSesUdp.Run | dp-ses-udp.py:56-116 | the script computes the specification `UdpSessions`, with each early exit |
| DpSesUdp.UdpOk | dp-ses-udp.py:56-116 | on success both tables were found, the AP map built and every row read |
| DpSesUdp.HitSessions | dp-ses-udp.py:85-105 | when every row is read, a session is kept exactly when some row yields it |
| DpSesUdp.HitOf | dp-ses-udp.py:85-105 | a kept hit is one some row yields, and every yielded hit is kept |
| DpSesUdp.HitClients | dp-ses-udp.py:98-99 | when every row is read, an address is a client exactly when some kept row from a Teams port goes to it |
| DpSesUdp.ClientHit | dp-ses-udp.py:98-99 | a client address comes from a kept client session to it |
| DpSesUdp.KeptRows | dp-ses-udp.py:85-116 | on success every data row is read without error, a session is kept exactly when some row yields it, and an address is a client exactly when some kept row from a Teams port goes to it |
| DpSesZoom.RowKept | dp-ses-zoom.py:62-74 | a row read without error has a hexadecimal TAge; it is kept exactly when TAge is above 5, the protocol is not GRE and the source port is in 8801..8810, and the kept session carries the row's own values |
| DpSesZoom.DstsSnoc | dp-ses-zoom.py:73 | one more kept session adds its destination to `dip` |
| DpSesZoom.Scan | dp-ses-zoom.py:62-80 | the main loop fails with the error of the first row that raises, and otherwise gives `tbl`, `tbl_m` and `dip` of the kept sessions |
| DpSesZoom.Run | dp-ses-zoom.py:47-80 | the script computes the specification `Zoom` |
| DpSesZoom.ReportMeaning | dp-ses-zoom.py:73-95 | `dip` holds exactly the destinations of the kept sessions, `tbl_m` exactly the kept sessions to a multicast address, and there are no more receivers than sessions |
| DpSesZoom.DstsSize | dp-ses-zoom.py:94-95 | the number of distinct receivers is at most the number of sessions |
| DpSesZoom.KeptRows | dp-ses-zoom.py:62-74 | on success every data row is read without error, and a session is kept exactly when some row is read as it |
| Sessions.LeadingDigits | dp-ses-toprate.py:94 | the `\d+` run at the start of the address is all digits and maximal |
| Sessions.MulticastMeaning | dp-ses-toprate.py:94-98 | an address is multicast exactly when it starts with a run of digits, then '.', whose value lies in 224..239 |
| Sessions.MulticastQuad | dp-ses-toprate.py:94-98 | a dotted address is multicast exactly when its first octet is in 224..239 |
| Sessions.Summary | dp-ses-toprate.py:92-103 | the kept table is the sessions, `tbl_m` holds exactly the multicast ones, and no flag counter exceeds the number of sessions |
| Sessions.Keep | dp-ses-toprate.py:92-103 | one kept session turns the summary of the sessions so far into that of one more |
| Sessions.SomesMembers | dp-ses-toprate.py:84-92 | a value is kept exactly when some row's outcome holds it |
| Sessions.SomesPositions | dp-ses-toprate.py:84-92 | the kept values come from the kept rows at increasing positions, one per kept row, and every kept row contributes |
| Sessions.GatherSomes | dp-ses-toprate.py:84-92 | a scan that keeps some rows and skips others succeeds only when every row is read without error, and then keeps exactly the values of the rows read as kept |
| Sessions.IpAps | dp-ses-toprate.py:65-69 | each user-table row gives its IP and its AP name |
| Sessions.BuildUserAps | dp-ses-toprate.py:65-69 | the loop building `ip2apn` computes `UserAps`, failing on a short row |
| Sessions.UserApsMeaning | dp-ses-toprate.py:65-112 | an IP maps to the AP name of the last user-table row with that IP, and to '' (`ip2apn.get(ip, '')`) when no row has it |
| EsxApname.RowPairs | esx-apname.py:63-67 | each row gives its (AP name, BSSID) at the columns the table's own header names, or IndexError exactly when some row is too short |
| EsxApname.NoMids | esx-apname.py:99-101 | every AP of the survey gets an entry in `apid_to_mids` |
| EsxApname.Last2 | esx-apname.py:121-127 | the 'xx:xx' taken from a placeholder name is a pair of lower-case hex bytes that the name carries after '実際 AP-' or 'Measured AP-' |
| EsxApname.MidsKeys | esx-apname.py:99-104 | every AP keeps its entry in `apid_to_mids` |
| EsxApname.Surveys | esx-apname.py:84-150 | the survey files in turn give one conversion each |
| EsxApname.BuildBssMap | esx-apname.py:59-77 | when no bss-table was stored, get_tables gives None and the loop raises TypeError. Otherwise the loop over the tables computes `BssMap` of all their rows and leaves `bss` at the last BSSID read, or fails as `Pairs` does. What the map then holds is stated by `EsxApnameFacts.BssKeys` and `EsxApnameFacts.BssValue` |
| EsxApname.ReadTable | esx-apname.py:62-77 | one table extends the map and the last BSSID by its rows, or fails as `TablePairs` does |
| EsxApname.ReadRows | esx-apname.py:65-77 | the loop over the rows of one table extends the map and the last BSSID by its pairs |
| EsxApname.RowShort | esx-apname.py:65-67 | a row too short for either column fails the whole table |
| EsxApname.BssSnoc | esx-apname.py:68-77 | one more row updates the map by the duplicate rule and becomes the last BSSID |
| EsxApname.PairsStop | esx-apname.py:62-77 | once a table has failed, the later tables change nothing |
| EsxApname.ChooseBss | esx-apname.py:128-131 | the measurement loop with its `break` computes `Choose` |
| EsxApname.RenameOne | esx-apname.py:115-150 | the body of the conversion loop computes `OneAp`, and an AP it does not rename is left as it was |
| EsxApname.RenameAps | esx-apname.py:113-150 | the conversion loop renames the APs in place and counts them, as `Convert` specifies for the array's old contents |
| EsxApname.ConvertSnoc | esx-apname.py:114-150 | one more AP appends its outcome and counts it when renamed |
| EsxApname.ConvertSnocErr | esx-apname.py:114-150 | one more AP that raises makes the loop raise its error |
| EsxApname.ConvertStop | esx-apname.py:114-150 | once an AP has raised, the later APs change nothing |
| EsxApname.Dicts | esx-apname.py:99-108 | the three loops fill `apid_to_mids` and `mid_to_bss` as `Mids` and `MacOf` specify, or raise KeyError |
| EsxApname.MidsStop | esx-apname.py:103-104 | once a radio has raised, the later radios change nothing |
| EsxApname.RunSurvey | esx-apname.py:99-150 | one survey file computes `Survey`: its dicts, then its APs renamed |
| EsxApname.Run | esx-apname.py:59-150 | the whole script computes the specification `EsxApname`: the result of get_tables (the TypeError when it is None), the bss tables, then every survey file with `bss` carried from one to the next |
| EsxApname.SurveysStop | esx-apname.py:84-150 | once a survey file has raised, the later files change nothing |
| EsxApnameFacts.BssKeys | esx-apname.py:61-77 | a BSSID is in `bss_to_apn` exactly when some row names it |
| EsxApnameFacts.BssValue | esx-apname.py:68-77 | when no AP is itself called "DUP": the map says "DUP" for a BSSID exactly when two rows give it different names, and otherwise every row with that BSSID carries the name the map holds |
| EsxApnameFacts.OtherRowConflict | esx-apname.py:68-77 | a row for another BSSID changes nothing about a BSSID's conflicts |
| EsxApnameFacts.DupSticky | esx-apname.py:69-71 | a BSSID once marked "DUP" stays so whatever rows follow |
| EsxApnameFacts.NoMidsMeaning | esx-apname.py:99-101 | `apid_to_mids` starts with exactly the known AP ids, each with no measurement |
| EsxApnameFacts.MidsMeaning | esx-apname.py:99-104 | filling `apid_to_mids` succeeds exactly when every radio belongs to a known AP; then every AP, and only those, maps to the measurements of all its radios in order |
| EsxApnameFacts.MidsKnownKeys | esx-apname.py:99-104 | the keys of `apid_to_mids` are the known AP ids, whatever radios were added |
| EsxApnameFacts.MidsDefined | esx-apname.py:102-104 | filling `apid_to_mids` raises no KeyError iff every radio belongs to a known AP |
| EsxApnameFacts.MidsValues | esx-apname.py:99-104 | every AP maps to the measurements of all its radios, in file order |
| EsxApnameFacts.MacOfMeaning | esx-apname.py:106-108 | `mid_to_bss` holds every measurement id, with the mac of its last entry |
| EsxApnameFacts.Last2Actual | esx-apname.py:121 | a '実際 AP-xx:xx' name gives back its 'xx:xx' |
| EsxApnameFacts.Last2Measured | esx-apname.py:123 | a 'Measured AP-xx:xx' name gives back its 'xx:xx' |
| EsxApnameFacts.ChooseFirst | esx-apname.py:128-131 | with every id measured, the loop stops at the first BSSID ending in 'xx:xx' |
| EsxApnameFacts.ChooseNoMatch | esx-apname.py:128-131 | with every id measured and none matching, `bss` is the last BSSID of the loop, or what it was before when the AP has no measurement |
| EsxApnameFacts.ChooseFails | esx-apname.py:128-131 | the loop raises KeyError exactly when it reaches a measurement id `mid_to_bss` lacks before any BSSID ending in 'xx:xx' |
| EsxApnameFacts.OneApOk | esx-apname.py:115-150 | a renamed AP changes only its name, to one it may take; any other AP is left alone |
| EsxApnameFacts.OneApAruba | esx-apname.py:133-141 | a placeholder Aruba AP is renamed exactly when its BSSID has one name in the map, and takes that name |
| EsxApnameFacts.OneApOther | esx-apname.py:142-146 | another vendor's placeholder AP is renamed exactly when --vendor is given |
| EsxApnameFacts.ConvOkSnoc | esx-apname.py:114-150 | one more AP converted as `OneAp` says keeps the conversion correct AP by AP |
| EsxApnameFacts.ConvertMeaning | esx-apname.py:113-150 | `num_processed` counts the renamed APs; a renamed AP changes only its name, to one it may take; every other AP is left as it was |
| EsxApnameFacts.ConvertStep | esx-apname.py:114-150 | a converted file is the conversion of all but its last AP followed by that AP's outcome |
| PhycapDistrib.FloorFrom | phycap-distrib.py:78 | the search for 'Floor_' and two digits finds the first position from `i` where they start, or reports that there is none |
| PhycapDistrib.FloorOf | phycap-distrib.py:78-80 | an AP name gives the two-digit floor after its first 'Floor_' followed by two digits, and no floor when it has none |
| PhycapDistrib.FloorOfPrefix | phycap-distrib.py:78-80 | a name starting 'Floor_dd' is on floor dd |
| PhycapDistrib.ApNames | phycap-distrib.py:71 | the AP name column of the user table, row by row |
| PhycapDistrib.UserMapsSnoc | phycap-distrib.py:69-85 | one more user row counts its AP, counts its floor when the name has one, and records its OS for its MAC when the OS is not empty |
| PhycapDistrib.AddUser | phycap-distrib.py:70-85 | the loop body over one user row keeps the maps equal to those of the rows so far |
| PhycapDistrib.BuildUsers | phycap-distrib.py:66-85 | the user-table loop computes `apnctr`, `flrctr` and `mac2os` as `UserMaps` specifies |
| PhycapDistrib.OsMeaning | phycap-distrib.py:83-148 | a client's OS is that of the last user row with its MAC and a non-empty OS, and 'unknown' when there is none |
| PhycapDistrib.FloorCounts | phycap-distrib.py:78-81 | `flrctr[f]` is the number of user rows whose AP name gives floor f |
| PhycapDistrib.FloorsCount | phycap-distrib.py:78-81 | the floors read, counted per floor, are the user rows on that floor |
| PhycapDistrib.ChannelLabel | phycap-distrib.py:94-98 | the channel label is digits with an optional 'S', 'E', '+' or '-' that the cell starts with, followed by '/' |
| PhycapDistrib.ChannelLabelOf | phycap-distrib.py:94-98 | digits and an optional bonding suffix before a '/' are read back as the label |
| PhycapDistrib.BssResults | phycap-distrib.py:91-98 | the outcome of each bss-table row, in order |
| PhycapDistrib.BuildBssCh | phycap-distrib.py:90-98 | the bss-table loop fails at the first row without a channel label and otherwise maps each BSSID to the label of its last row, skipping 'am' and 'Spectrum' rows |
| PhycapDistrib.StreamsFrom | phycap-distrib.py:138 | the search for '-Nss' finds the first position from `i` where it starts, or reports that there is none |
| PhycapDistrib.Streams | phycap-distrib.py:138-142 | the stream count is the digit of the first '-Nss' in the phy capabilities, and 0 when there is none |
| PhycapDistrib.StaResults | phycap-distrib.py:114-151 | the outcome of each association row, in order |
| PhycapDistrib.Essids | phycap-distrib.py:117 | the SSID of each association |
| PhycapDistrib.EssBands | phycap-distrib.py:128-133 | the SSID and band of each association |
| PhycapDistrib.OsStreams | phycap-distrib.py:149 | the OS and stream count of each association |
| PhycapDistrib.Chans | phycap-distrib.py:151 | the channel of each association |
| PhycapDistrib.StreamCounts | phycap-distrib.py:109-143 | slot k of `numss` counts the associations with k streams |
| PhycapDistrib.FlagsSnoc | phycap-distrib.py:121-136 | one more association adds one to the 5 GHz or the 2.4 GHz counter and one to each of HT, VHT and HE it names |
| PhycapDistrib.StreamsSnoc | phycap-distrib.py:143 | one more association adds one to the slot of its stream count |
| PhycapDistrib.TalliesSnoc | phycap-distrib.py:126-151 | one more association adds one to its (OS, streams), SSID, (SSID, band) and channel counters |
| PhycapDistrib.AddSta | phycap-distrib.py:115-151 | the loop body over one association keeps the counters equal to those of the associations so far |
| PhycapDistrib.Scan | phycap-distrib.py:103-151 | the association loop fails at the first row with an unknown BSS or a stream count beyond the five slots, and otherwise computes every counter as `Count` specifies |
| PhycapDistrib.Run | phycap-distrib.py:45-151 | the script computes the specification `Phycap`: each missing table stops it, the association and bss tables are de-duplicated, then the three loops run |
| PhycapDistrib.RunTables | phycap-distrib.py:66-151 | the three loops in turn compute `Tables` |
| PhycapDistrib.BandsSplit | phycap-distrib.py:128-133 | every association is counted as 5 GHz or as 2.4 GHz, never both |
| PhycapDistrib.EssSplit | phycap-distrib.py:126-133 | each SSID's client count is the sum of its 2.4 GHz and 5 GHz counts |
| PhycapDistrib.StreamsTotal | phycap-distrib.py:138-143 | every client with a stream slot is in exactly one slot |
| PhycapDistrib.StaStreams | phycap-distrib.py:114-151 | after a successful loop every association has its own row's reading and a stream slot |
| PhycapDistrib.CountsMeaning | phycap-distrib.py:59-151 | on success: the band counts and the stream counts each add up to the associations, so do the channel counts, each SSID's count is the sum of its two band counts, and the header's STA count is the number of associations |
| RadarStats.EventResults | radar-stats.py:42-44 | the outcome of each radar row, in order: its AP and its channel as an integer |
| RadarStats.BusyLen | radar-stats.py:65-68 | the listing loop runs over no more APs than there are |
| RadarStats.TalliedSnoc | radar-stats.py:45-54 | one more event counts once for its AP and once for its channel on that AP |
| RadarStats.Collect | radar-stats.py:40-54 | the counting loop fails exactly where the table has a channel that is not a number, and otherwise computes `radar_num` and `radar_ch` as `Tallied` specifies |
| RadarStats.Add | radar-stats.py:45-54 | one event, with the KeyError of a new AP or channel starting its count at one, updates the dicts as `Record` specifies and keeps both dicts on the same APs |
| RadarStats.BusySuffix | radar-stats.py:65-68 | an AP with more than four events lets the loop go on to the next |
| RadarStats.List | radar-stats.py:65-70 | the listing loop with its `break` computes `Listing` |
| RadarStats.LinesSnoc | radar-stats.py:69-70 | one more AP appends its row of DFS channel counts |
| RadarStats.Run | radar-stats.py:35-70 | the script computes the specification `RadarStats`: count the events, then list the busy APs |
| RadarStats.EventsFail | radar-stats.py:42-44 | the table fails exactly when some channel is not a number; otherwise every row is read as its AP and channel |
| RadarStats.SeenOnBound | radar-stats.py:45-54 | an AP has no more events on one channel than in all |
| RadarStats.TallyKeys | radar-stats.py:45-49 | the APs in both dicts are exactly those with an event, and the insertion order holds each of them once |
| RadarStats.TallyNum | radar-stats.py:45-48 | `radar_num` holds each AP's number of events |
| RadarStats.TallyCh | radar-stats.py:49-54 | an AP's channel dict holds exactly the channels it saw, each with its number of events |
| RadarStats.BusyPrefix | radar-stats.py:65-68 | with the keys sorted largest first, the loop stops exactly at the first AP with at most four events |
| RadarStats.SortedKeys | radar-stats.py:65 | the sorted keys are the keys of `radar_num`, each once, largest count first |
| RadarStats.BusyNames | radar-stats.py:65-70 | the sheet names exactly the sorted keys with more than four events |
| RadarStats.ListingNames | radar-stats.py:65-70 | the sheet lists exactly the APs with more than four events |
| RadarStats.ListingOrder | radar-stats.py:65 | the sheet lists the APs by their number of events, largest first |
| RadarStats.ListingCells | radar-stats.py:62-69 | each row's cells are the AP's numbers of events on the fifteen DFS channels, 0 where it had none |
| RadarStatsNttd.AlnumLen | radar-stats-nttd.py:48 | the run of ASCII letters and digits an AP name starts with, ending at the first other character |
| RadarStatsNttd.RowResults | radar-stats-nttd.py:43-70 | the outcome of each event row, in order |
| RadarStatsNttd.Zeros | radar-stats-nttd.py:68 | a new prefix starts with 24 zero counts |
| RadarStatsNttd.TalliedSnoc | radar-stats-nttd.py:64-70 | one more row counts its event, if any, for its prefix and hour |
| RadarStatsNttd.Add | radar-stats-nttd.py:64-70 | one event, with the KeyError of a new prefix starting its 24 counts, updates the dicts as `Record` specifies |
| RadarStatsNttd.TallyShaped | radar-stats-nttd.py:64-70 | every prefix in the dicts has 24 counts and a total, and the insertion order holds exactly the prefixes |
| RadarStatsNttd.Collect | radar-stats-nttd.py:41-70 | the counting loop fails at the first RADAR_DETECT row whose channel is not a number or whose hour is past 23, and otherwise computes the dicts as `Tallied` specifies |
| RadarStatsNttd.Run | radar-stats-nttd.py:36-82 | the script computes the specification `RadarStatsNttd`: count the events, then list the prefixes |
| RadarStatsNttd.PrefixMeaning | radar-stats-nttd.py:48-52 | the prefix is the one non-empty string of letters and digits that, followed by '-', starts the AP name; without one the row is skipped |
| RadarStatsNttd.AlnumLenAt | radar-stats-nttd.py:48 | a run of letters and digits ended by another character is the whole leading run |
| RadarStatsNttd.HourMeaning | radar-stats-nttd.py:54-58 | the hour is `int()` of the timestamp's two hour digits, so it is below 100 |
| RadarStatsNttd.SumBump | radar-stats-nttd.py:65-66 | raising one hour's count by one raises the sum of the counts by one, as the total rises |
| RadarStatsNttd.SeenAtBound | radar-stats-nttd.py:64-70 | a prefix's events in one hour are at most its total |
| RadarStatsNttd.TallyMeaning | radar-stats-nttd.py:64-70 | a prefix is a key exactly when it has an event, its total is its number of events, and its 24 counts are its numbers of events per hour |
| RadarStatsNttd.SummedStep | radar-stats-nttd.py:64-70 | one row keeps every prefix's counts adding up to its total |
| RadarStatsNttd.TallySums | radar-stats-nttd.py:64-70 | each prefix's 24 counts add up to its total, the last cell of its row |
| RadarStatsNttd.DetectionsHours | radar-stats-nttd.py:54-70 | the events of a table that does not fail have hours below 24 |
| RadarStatsNttd.SortedKeys | radar-stats-nttd.py:80 | the sorted prefixes are the keys of the dicts, largest total first |
| RadarStatsNttd.ListingNames | radar-stats-nttd.py:80-82 | the sheet lists every prefix with an event, and no other |
| RadarStatsNttd.ListingOrder | radar-stats-nttd.py:80 | the sheet lists the prefixes by total, largest first |
| RadarStatsNttd.ListingCells | radar-stats-nttd.py:82 | a row's total is its prefix's number of events, its cells its numbers of events per hour, and they add up to the total |
| RetryRates.Column | retry_rates.py:41-44 | `list.index` gives a position whose header cell is the column's name, and fails exactly when the header lacks that name |
| RetryRates.RowResults | retry_rates.py:46-49 | the outcome of each data row, in order |
| RetryRates.ReadTable | retry_rates.py:41-59 | one table fails as its header or its rows do, and otherwise extends the three dicts by its clients |
| RetryRates.ReadData | retry_rates.py:46-59 | the loop over a table's data rows extends the three dicts by its clients, or fails at the first row that does |
| RetryRates.SelectedSnoc | retry_rates.py:50-59 | one more row updates the kept client of its MAC as `Update` says |
| RetryRates.Store | retry_rates.py:50-59 | one row is ignored under 4000 packets or under the stored count, and otherwise stored in all three dicts |
| RetryRates.Run | retry_rates.py:33-77 | the script computes the specification `RetryRates`: every table in turn, the dicts carried over, a snapshot printed after each table, and the first failure ends it |
| RetryRates.Snapshot | retry_rates.py:64-75 | the clients the script prints, read back from the three dicts, are those `Selected` keeps |
| RetryRates.SelectedMacs | retry_rates.py:57-59 | each client is stored under its own MAC |
| RetryRates.ClientsStop | retry_rates.py:40-59 | once a table has failed, the later tables change nothing |
| RetryRates.PrintedStop | retry_rates.py:40-77 | a failing table prints nothing, and nothing is printed after it |
| RetryRates.SelectedKeys | retry_rates.py:50-59 | the clients kept are exactly the MACs with some row of at least 4000 packets |
| RetryRates.SelectedMax | retry_rates.py:52-58 | each MAC holds its row with the most packets, the last of equal counts |
| RetryRates.KeptLast | retry_rates.py:52-58 | a last row at least as large as the row kept before it replaces it |
| RetryRates.KeptEarlier | retry_rates.py:52-56 | a last row that is not stored leaves the earlier kept row kept |
| RetryRates.KeptFirst | retry_rates.py:50-58 | the first row of a MAC with at least 4000 packets is stored |
| TopTalker.SesResults | toptalker.py:91-93 | the outcome of each session row, in order: its byte count read by `int()` |
| TopTalker.Pad | toptalker.py:96 | a field padded as `f"{s:w}"` is `s` itself followed by spaces up to width `w`, never cut |
| TopTalker.RecordedSnoc | toptalker.py:91-100 | one more row of the first snapshot stores a local session under its key and ignores any other |
| TopTalker.ComparedSnoc | toptalker.py:113-137 | one more row of the second snapshot updates the delta dict as `Compare` says |
| TopTalker.ReadFirst | toptalker.py:84-100 | the first snapshot's loop fails at the first byte count that is not a number, and otherwise computes the session dicts as `Recorded` specifies |
| TopTalker.ReadSecond | toptalker.py:109-137 | the second snapshot's loop fails as the first does, and otherwise computes the delta dict as `Compared` specifies |
| TopTalker.CompareRow | toptalker.py:114-137 | one row of the second snapshot: its key takes its delta and joins the dict's order when new; a session the first snapshot lacks records its addresses and application |
| TopTalker.AggregatedSnoc | toptalker.py:145-174 | one more session of the delta dict is accounted as `Account` says |
| TopTalker.Aggregate | toptalker.py:142-174 | the aggregation loop over the delta dict, in its insertion order, computes `Aggregated` |
| TopTalker.ChargeEnd | toptalker.py:155-168 | one end of a session: the `try ... except KeyError` adds the bytes and one session to a local address, starting a new one at the delta and 1 |
| TopTalker.TopOf | toptalker.py:178-182 | the printed list is the keys sorted by value, largest first, cut to ten |
| TopTalker.Run | toptalker.py:81-183 | the script after its SSH session computes the specification `TopTalker`: both snapshots, the deltas, the aggregates and the two top-ten lists |
| TopTalker.RecordedMeaning | toptalker.py:91-100 | the first snapshot keeps exactly the keys of its local rows, each with the last local row of that key |
| TopTalker.CoherentCompared | toptalker.py:113-137 | every key with a delta has its addresses and application, the order holds each key of the delta dict once, and the first snapshot's sessions keep their addresses |
| TopTalker.ComparedKeys | toptalker.py:113-132 | a key has a delta exactly when some local row of the second snapshot has it |
| TopTalker.ComparedLast | toptalker.py:118-135 | a key's delta is that of its last local row in the second snapshot; its addresses are the first snapshot's when it had the key, else those of that last row |
| TopTalker.DeltaBounds | toptalker.py:120-132 | with counts that are not negative, a delta lies between 0 and the latest count; it is the growth since the first snapshot when the count grew, and the whole latest count otherwise |
| TopTalker.ChargeKeys | toptalker.py:155-168 | charging one end keeps `ip_bytes` and `ip_numses` on the same keys, adds the address when local, and keeps each address once in the order |
| TopTalker.ChargeCounts | toptalker.py:155-168 | charging one end adds one session and the delta to that address when it is local, and changes no other address |
| TopTalker.ChargeBothKeys | toptalker.py:155-168 | charging both ends adds exactly the local ends of the session to the keys |
| TopTalker.ChargeBothCounts | toptalker.py:155-168 | charging both ends adds one session and the delta per local end that is that address, twice when both ends are |
| TopTalker.IpsStep | toptalker.py:145-168 | one more session keeps the per-address totals equal to the sums over the sessions so far |
| TopTalker.AggregatedIps | toptalker.py:145-168 | `ip_bytes` and `ip_numses` have the same keys, exactly the local addresses with a counted session; each counted session adds its delta, and one session, to each of its local ends |
| TopTalker.ChargeApps | toptalker.py:155-168 | charging an address leaves the application dict alone |
| TopTalker.AddApp | toptalker.py:170-174 | one application charged gets the delta more, a new one joining the order |
| TopTalker.AppsStep | toptalker.py:145-174 | one more session keeps the per-application totals equal to the sums over the sessions so far |
| TopTalker.AggregatedApps | toptalker.py:145-174 | `app_bytes` holds exactly the applications of counted sessions, each with the sum of their deltas |
| TopTalker.SumAtAdd | toptalker.py:172-174 | adding the delta to an application that appears once in the order adds it to the sum |
| TopTalker.AppTotal | toptalker.py:145-174 | nothing is lost or counted twice: `app_bytes`, summed over its keys, is the sum of all counted deltas |
| TopTalker.TopMeaning | toptalker.py:178-182 | the printed list holds at most ten keys, all from the dict, in descending order of value, and a key left out has no larger value than any listed one |
| TopTalker.PadStrip | toptalker.py:96 | padding drops nothing: stripping the trailing spaces gives back a field that does not end in whitespace |
| TopTalker.PadAvoids | toptalker.py:96 | padding adds only spaces |
| TopTalker.SplitKey | toptalker.py:96 | the key splits at ':' back into its five padded fields |
| TopTalker.KeyInjective | toptalker.py:96 | two sessions share a key only when they agree on addresses, protocol and ports, as long as no field holds a ':' (which an IPv6 address or a MAC would) |
| TopTalker.PadInjective | toptalker.py:96 | two fields without ':' and without trailing whitespace that pad alike are equal |
| ArmState.FloorMatchAt | arm-state.py:82-86 | a match of a floor pattern at `p` ends its group inside the name |
| ArmState.FloorSearch | arm-state.py:84 | the search finds the first position from `p` where the pattern matches, with its group's end, or reports that there is none |
| ArmState.Floor | arm-state.py:81-87 | a floor is "G", "M" or a run of digits that occurs in the name as the pattern says, and "n/a" exactly when neither `(\d+\|[GM])[fF]` nor `B(\d+)-` occurs |
| ArmState.LastChannel | arm-state.py:228 | the greedy `.*` stops at the rightmost " Channel:" in range, or there is none |
| ArmState.SegmentEnd | arm-state.py:228 | one repetition of `\d+[SE+-]?` ends after the digit it starts with |
| ArmState.LastSegment | arm-state.py:228 | the repeated group captures its last repetition, which starts with a digit |
| ArmState.Header | arm-state.py:228-231 | a header gives the AP name that follows "AP:" up to " MAC:", a non-empty run of word characters and dashes, and a channel label that starts with a digit |
| ArmState.Step | arm-state.py:208-239 | the scanner never forgets a block it has closed |
| ArmState.StartFrom | arm-state.py:200-202 | the skip loop stops at a line of the input, or at the end |
| ArmState.Recorded | arm-state.py:191-193 | the AP database loop gives `apn2model` and `apn2group` the same names |
| ArmState.Database | arm-state.py:176-193 | the AP database read from the log gives both dicts the same names |
| ArmState.ChanOf | arm-state.py:125-130 | the channel read from a cell is the non-empty run of digits the cell starts with |
| ArmState.Neighbor | arm-state.py:114-136 | a neighbour named with ':' is skipped; otherwise it is a neighbour exactly at SNR 10 or more, coverage exactly at SNR 30 or more, co-channel exactly when also its channel overlaps the AP's own; coverage and co-channel neighbours are neighbours |
| ArmState.NbrCounts | arm-state.py:110-136 | the neighbour loop counts no more coverage or co-channel neighbours than neighbours, and no more neighbours than rows |
| ArmState.Processed | arm-state.py:95-151 | a row is kept only for an AP the pattern accepts and the AP database knows, with its group, model and channel |
| ArmState.ReadDatabase | arm-state.py:186-193 | the AP database loop computes `Database` |
| ArmState.ReadNeighbor | arm-state.py:115-136 | one iteration of the neighbour loop computes `Neighbor` |
| ArmState.Tick | arm-state.py:120-136 | the counters rise as one neighbour calls for |
| ArmState.CountNeighbors | arm-state.py:110-136 | the neighbour loop computes `NbrCounts` |
| ArmState.ParseNbrData | arm-state.py:89-151 | parse_nbr_data computes `Processed` |
| ArmState.CloseBlock | arm-state.py:209-219 | a closed block handed to parse_nbr_data keeps its row and charges the counters when it was counted, or raises what the block raises |
| ArmState.ChargeRow | arm-state.py:143-148 | a counted row adds one AP and its co-channel count to its floor and to the totals |
| ArmState.SkipToSection | arm-state.py:199-202 | the skip loop leaves the lines after the first 'show ap arm state' line |
| ArmState.ScanSection | arm-state.py:205-239 | the scanner loop hands each closed block to parse_nbr_data and keeps its row, computing `Collected` of the blocks `Scanned` closes |
| ArmState.Run | arm-state.py:176-257 | the script computes the specification `ArmStateOf`: the AP database, the scan, the total average (which needs an AP counted), and the rows sorted by lowered name |
| ArmState.RecordedSticks | arm-state.py:191-193 | once a database row has raised, the later rows change nothing |
| ArmState.NbrCountsSticks | arm-state.py:114-136 | once a neighbour row has raised, the later rows change nothing |
| ArmState.CollectedSticks | arm-state.py:208-219 | once a block has raised, the later blocks change nothing |
| ArmState.CollectedStep | arm-state.py:210-218 | one more block raises, keeps nothing, or appends its row, as parse_nbr_data returns |
| ArmState.NbrCountsStep | arm-state.py:114-136 | one more neighbour row raises or adds what it calls for |
| ArmState.ScannedPrefix | arm-state.py:208-239 | the scanner only ever appends blocks: those closed by a prefix of the lines come first |
| ArmState.CollectedStops | arm-state.py:208-239 | an exception raised for a block ends the whole scan with it |
| ArmState.CountersSnoc | arm-state.py:143-148 | a row without a neighbour table leaves the counters alone; a counted row charges its floor |
| ArmState.RecordedOk | arm-state.py:191-193 | the AP database loop fails exactly on a row of fewer than three cells |
| ArmState.RecordedLast | arm-state.py:191-193 | every name of the AP database has the group and model of the last row of that name |
| ArmState.RecordedKeys | arm-state.py:191-193 | every row's name is in the AP database |
| ArmState.AddMeaning | arm-state.py:114-136 | one row read without an exception adds one to each count whose condition it meets |
| ArmState.NbrCountsMeaning | arm-state.py:110-136 | the counts are the numbers of rows named without ':' heard at SNR 10 or more, at SNR 30 or more, and of those of the first kind whose channel overlaps the AP's own |
| ArmState.ColonIgnored | arm-state.py:116-118 | a neighbour whose name contains ':' changes nothing |
| ArmState.CollectedRows | arm-state.py:95-151 | the rows kept are those of APs the pattern accepts and the AP database knows, with its group and model, and every counted row keeps its coverage and co-channel counts within its neighbour count |
| ArmState.BlockOkGrows | arm-state.py:208-239 | a block that came from a prefix of the lines still came from the lines |
| ArmState.ScannedBlocks | arm-state.py:208-239 | every block handed on was opened by an 'AP:' header of the input whose channel is at least 36 and a multiple of 4, with that header's name and label, and holds no 'Legend: ' or 'AP:' line |
| ArmState.LegendNotHeader | arm-state.py:209-215 | a line cannot start both 'Legend: ' and 'AP:' |
| ArmState.BlockCount | arm-state.py:208-239 | every line that opens a block opens exactly one, also when it is the 'AP:' line that closes the block before it |
| ArmState.ChargesFloors | arm-state.py:143-145 | the floors charged are the floors counted, in order |
| ArmState.FloorCounts | arm-state.py:143-144 | each floor's AP count is the number of counted APs on it |
| ArmState.FloorSums | arm-state.py:143-148 | the per-floor AP counts add up to `allctr`, the per-floor co-channel counts to `allitf` |
| ArmState.FloorKeys | arm-state.py:143-145 | both floor dicts have the same floors: those of the counted APs |
| ArmState.ReportOrder | arm-state.py:250-257 | the report lists the rows kept, sorted by lowered name, rows of equal lowered name in the order they were found, and at least one AP was counted |
| ArmNbrs.Entries | arm-nbrs.py:113-174 | the entries of a printed listing, in printed order |
| ArmNbrs.Radio5 | arm-nbrs.py:90-97 | the channel of a monitored radio is the non-empty run of digits after the '5GHz/' it starts with |
| ArmNbrs.MonColour | arm-nbrs.py:116-128 | a monitored AP is green exactly when its BSSID ends '(+)'; otherwise blue below SNR 10, yellow on the own channel, cyan below SNR 25, and plain only at SNR 25 or more off the own channel |
| ArmNbrs.MonPainted | arm-nbrs.py:113-131 | every monitored entry is printed, in order, with its colour and the AP name its BSSID resolves to |
| ArmNbrs.LeadDigits | arm-nbrs.py:157-161 | the primary channel is the non-empty run of digits the channel cell starts with |
| ArmNbrs.NbrColour | arm-nbrs.py:177-197 | a neighbour is blue exactly below SNR 10; red exactly when same-channel with EIRP '0', yellow when same-channel otherwise, magenta for EIRP '0' off the channel, cyan below SNR 25, plain at SNR 25 or more; never green |
| ArmNbrs.NbrPainted | arm-nbrs.py:174-201 | every neighbour is printed, in order, with its colour and the AP name its BSSID resolves to |
| ArmNbrs.SpacesEnd | arm-nbrs.py:253-260 | the ` +` of the command pattern takes the whole run of spaces |
| ArmNbrs.NamedAt | arm-nbrs.py:253-255 | a quoted AP name after 'ap-name' is a non-empty run of word characters and dashes |
| ArmNbrs.NamedSearch | arm-nbrs.py:253-260 | the search finds the command with a quoted name at some position from `p`, or at none |
| ArmNbrs.BssSearch | arm-nbrs.py:267 | the search finds 'show ap bss-table' followed only by line ends and spaces exactly when it occurs |
| ArmNbrs.OpenerOf | arm-nbrs.py:251-280 | only a line starting 'show ' or 'COMMAND' can open a block |
| ArmNbrs.Step | arm-nbrs.py:233-283 | the scanner never forgets a block it has handed on |
| ArmNbrs.KeepMonitor | arm-nbrs.py:76-101 | the loop of parse_ap_mon over the table rows computes `MonRows` |
| ArmNbrs.PaintMonitor | arm-nbrs.py:113-133 | the colouring loop of parse_ap_mon computes `MonPainted` |
| ArmNbrs.ParseApMon | arm-nbrs.py:68-133 | parse_ap_mon computes `ApMon` |
| ArmNbrs.KeepNeighbors | arm-nbrs.py:143-166 | the loop of parse_arm_nbr over the table rows computes `NbrRows` |
| ArmNbrs.PaintNeighbors | arm-nbrs.py:174-203 | the colouring loop of parse_arm_nbr computes `NbrPainted` and its two counters as `Tallied` specifies |
| ArmNbrs.Count | arm-nbrs.py:184-197 | a yellow neighbour adds one to `nintf`, and one to `cov` at SNR 25 or more; a plain one adds one to `cov` |
| ArmNbrs.ParseArmNbr | arm-nbrs.py:136-205 | parse_arm_nbr computes `ArmNbr` |
| ArmNbrs.ParseBssTbl | arm-nbrs.py:55-66 | parse_bss_tbl computes `BssTbl` |
| ArmNbrs.ReadOpener | arm-nbrs.py:251-280 | the opener tests of the main loop, in order, compute `OpenerOf` |
| ArmNbrs.ParseBlock | arm-nbrs.py:234-245 | a finished block is handed to the parse function of its kind |
| ArmNbrs.Run | arm-nbrs.py:230-283 | the main loop computes the specification `ArmNbrsOf`: each line closes, joins or opens a block, a closed block is parsed at once, and the first exception ends the script |
| ArmNbrs.MonRowsSticks | arm-nbrs.py:79-101 | once a monitor row has raised, the later rows change nothing |
| ArmNbrs.NbrRowsSticks | arm-nbrs.py:148-166 | once a neighbour row has raised, the later rows change nothing |
| ArmNbrs.BssRowsSticks | arm-nbrs.py:63-64 | once a bss-table row has raised, the later rows change nothing |
| ArmNbrs.AppliedSticks | arm-nbrs.py:233-283 | once a block has raised, the later blocks change nothing |
| ArmNbrs.PaintedStep | arm-nbrs.py:174-203 | one more neighbour is printed in its colour and counted as its colour says |
| ArmNbrs.ScannedPrefix | arm-nbrs.py:233-283 | the scanner only ever appends: what a prefix of the lines hands on comes first |
| ArmNbrs.AppliedStops | arm-nbrs.py:233-283 | an exception raised for a block ends the whole script with it |
| ArmNbrs.MonOwnLast | arm-nbrs.py:98-100 | `mych` is the channel of the last kept entry whose BSSID ends '(+)', and stays unset when there is none |
| ArmNbrs.MonSeen | arm-nbrs.py:79-97 | every row's BSSID prefix ends up recorded, whether the row was kept, skipped as a repeated 'valid' entry, or left out for not being 5 GHz; nothing else is recorded |
| ArmNbrs.MonValidFirst | arm-nbrs.py:83-85 | a kept 'valid' entry's BSSID prefix differs from that of every entry kept before it |
| ArmNbrs.MonOthersKept | arm-nbrs.py:83-101 | every 5 GHz entry of another type than 'valid' is kept, with its SNR read |
| ArmNbrs.GreenOwn | arm-nbrs.py:110-131 | in the listing sorted by SNR some row is green exactly when an own BSSID was kept, and then a green row carries `mych` |
| ArmNbrs.ApMonFrame | arm-nbrs.py:68-133 | parse_ap_mon adds exactly one listing and changes no other global than `apn2ch[apn]` |
| ArmNbrs.ApMonListing | arm-nbrs.py:68-133 | the listing is for this AP, ordered by SNR, loudest first; its green rows are the AP's own BSSIDs; with one, `apn2ch[apn]` becomes the channel of a green row, and without one `apn2ch` is left alone |
| ArmNbrs.NbrDistinct | arm-nbrs.py:148-166 | the kept neighbours have pairwise different BSSID prefixes, none is 'Indirect', and each carries the leading digits of its channel cell as its primary channel |
| ArmNbrs.NbrCovered | arm-nbrs.py:148-166 | every row must carry a band, and a 5 GHz row its flags; every 5 GHz row that is not 'Indirect' is represented by a kept neighbour of the same BSSID prefix, and only such rows are recorded |
| ArmNbrs.TalliedCounts | arm-nbrs.py:177-197 | `nintf` counts the co-channel neighbours and `cov` the covering ones: the colour tests add up to these plain conditions |
| ArmNbrs.ArmNbrListing | arm-nbrs.py:136-205 | parse_arm_nbr needs the AP's own channel, adds exactly one listing, for this AP and that channel, and changes no global; the neighbours are ordered by SNR, loudest first, and `nintf` and `cov` count as `TalliedCounts` says |
| ArmNbrs.IapNeverCoChannel | arm-nbrs.py:274-277 | the instant AP's own channel is set to '36+' here, and the leading digits of a channel cell (lines 157-161) never equal '36+', so the co-channel tests of lines 181-186 never hold for its neighbours |
| ArmNbrs.BssPairs | arm-nbrs.py:63-64 | one (BSSID, AP name) pair per bss-table row |
| ArmNbrs.BssRowsMeaning | arm-nbrs.py:63-64 | the bss-table loop fails exactly on a row of fewer than nine cells; otherwise `bss2apn` is the old map overridden by the rows' pairs, a later row of a BSSID winning |
| ArmNbrs.BlockOkGrows | arm-nbrs.py:233-283 | a block that came from a prefix of the lines still came from the lines |
| ArmNbrs.ScannedBlocks | arm-nbrs.py:233-283 | every block handed on, and the one still open, starts with the command line that opened it, has that line's kind and AP name, holds no further line that closes a block, and all its lines come from the input |
| ArmNbrs.CloseThenOpen | arm-nbrs.py:234-271 | a command line that closes a block opens the next block at once |

## Behaviour of the code worth knowing

Where the tools' documented behaviour and the code differ, the model follows the code:

- In `AOSParser.__init__` every configured command pattern that matches a line overwrites
  the current command, so the last matching pattern wins (aos_parser.py:145-153), not the first.
- The parser ends a table only by the rules of aos_parser.py:88-111 and 136-139:
  - a blank line ends a content section but not the table;
  - in the datapath session tables, blank lines and lines that start with a MAC are skipped,
    and a line that does not start with a digit ends the table;
  - the association table ends at 'Num Clients:';
  - a line containing 'show ' ends any table.
  No table has an end rule of its own beyond these, including the AP and client lists.

Behaviour the model keeps as written, because it is what the code does:

- arm-nbrs.py pins an instant AP's own channel to '36+' (arm-nbrs.py:277). A neighbour's
  primary channel is plain digits, so such a neighbour is never co-channel
  (`ArmNbrs.IapNeverCoChannel`). `nintf` and `cov` are counted but never printed.
- In ap-monitor-list-sum.py the labels '64+' and '108-' map to empty channel sets
  (ap-monitor-list-sum.py:32-36), so they are never co-channel with anything.
- In ap-monitor-list.py an AP with no own BSSID leaves `myapn` unset, and the
  script fails with NameError where it first uses it.
- In cli-monitor-list.py the connected section includes stations of any sta-type, not only
  valid ones.
- dp-ses-zoom.py never increments its V/I/Q/u counters, and it exits before printing the
  multicast sessions.
- In dp-msgq.py a papi line reassigns `cpu`, so later message-queue lines of the same
  capture are keyed by that CPU.
- retry_rates.py prints the rows it stored from earlier tables with the column positions of
  the table it has just read.
- In esx-apname.py the loop variable `bss` outlives its loops. An AP without
  measurements is matched against the BSSID the previous loop left behind.
- In radar-stats-nttd.py an hour of 24 or more raises IndexError, and the
  `except KeyError` around it does not catch it.
- The model follows Python 3.10 and later. On those versions `'{:0}'.format(s)` returns `s`
  unchanged, so `table2str` renders a column whose cells are all empty (width 0) as the
  empty string (`AosFormat.PadRight`). Earlier versions raise ValueError there.

## Findings

| source | as written | input that shows it | evidently intended | confidence | as-written member | corrected member |
|---|---|---|---|---|---|---|
| ap-monitor-list.py:132 | `_get_cols_gen` yields tuples (aos_parser.py:33-35), so `row[5] = int(row[5])` raises TypeError once `int()` succeeds; `except ValueError` does not catch it and the script stops. A listing without such a row appends nothing and ends at `myapn` | one ap-list row `aa:bb:cc:dd:ee:ff`, `x`, `5GHz/36+/40MHz/VHT`, `valid`, `wpa2`, `30`, `-60` | convert SNR and RSSI and keep the row as an entry, as cli-monitor-list.py does by copying the cells into locals | high; not executed | ApMonitor.AsWrittenNeverReports | MonitorRows.CollectOwn |
| ap-monitor-list-sum.py:109 | the same assignment into a tuple row, on the 5 GHz rows: the script stops at the first file holding one with an integer SNR, and otherwise prints a total of 0 and no 3rd-party AP | the same row in any file | convert SNR and RSSI and count the row | high; not executed | ApMonitorSum.AsWrittenReportsNothing | ApMonitorSum.ParseFile |

## Left out

- File and console input: `fileinput`, file names, glob expansion, the encoding retries
  (arm-state.py:176-184) and the `less` and win32gui calls of dif-radio-stats.py. Every
  script is given its input as lines, or as tables already projected to the columns it reads.
- The diagnostics and writers of aos_parser.py: `file_line`, `print_log_finfo`, `write_table`
  and `write_table_csv`. Also `cols2str`, which refers to names it never defines and so
  cannot run.
- Logging through `mylogger`, which is not part of this model. Log calls are treated as doing
  nothing.
- Printed text layout: column padding, the terminal colour codes and the header lines. The
  model keeps the values each script prints: rows, counts and colours as a `Colour` value.
  The `File:` line of arm-nbrs.py, its `TBL:` debug print and the `--num` line numbers of
  dif-radio-stats.py are not modelled.
- Spreadsheet output through openpyxl: cell styles, column widths and the `=SUM`
  formulas of radar-stats.py. For radar-stats.py and radar-stats-nttd.py the model stops
  at the rows written to the sheet.
- Ap2Xls.Run: the pandas steps after the model tally (ap2xls.py:104-110) are not modelled.
  These are the projection on seven named columns, which raises KeyError when the header
  lacks one, and `sort_values(['Name'])`. The model stops at the de-duplicated, filtered
  AP rows and the model tally, and does not give the sheet's row order.
- Ap2XlsNumSta.Run: the pandas steps after the loop (ap2xls_numsta.py:171-182) are not
  modelled. These are the left merge of the active table into the AP database on Name (a
  repeated name gives repeated rows; an AP that is not active gets empty NaN cells), the
  projection on fifteen named columns, which raises KeyError when one is missing, and
  `sort_values(['Name'])`. The model stops at `ap_act_tbl` and the counters.
- The `merge=` and `encoding=` keywords: `AOSParser.__init__` (aos_parser.py:58) accepts
  neither, so as written these scripts stop with TypeError at that constructor call, before
  any table is read: ap2xls.py:64 and 67, ap2xls_numsta.py:57, ap-monitor-list.py:109,
  cli-monitor-list.py:125, arm-state.py:103 and 178, phycap-distrib.py:45, radar-stats.py:35,
  radar-stats-nttd.py:36, dp-ses-toprate.py:49, dp-ses-topuser.py:47, dp-ses-udp.py:56 and
  dp-ses-zoom.py:47. The model reads each such call as a plain parse of the given lines.
- Ap2Xls.Run, Ap2XlsNumSta.Run, ApMonitor.Run, CliMonitor.Run, ArmState.Run,
  ArmState.ParseNbrData, PhycapDistrib.Run, RadarStats.Run, RadarStatsNttd.Run,
  DpSesTopRate.Run, DpSesTopUser.Run, DpSesUdp.Run, DpSesZoom.Run: each models the script
  past its `AOSParser(..., merge=..., encoding=...)` call, which as written raises TypeError.
- ApMonitor.Run: models the rows as lists, the evidently intended reading. As written the
  assignment into a tuple row raises TypeError (`ApMonitor.AsWrittenNeverReports`).
- ApMonitorSum.ParseFile: models the rows as lists. As written a 5 GHz row with an integer
  SNR raises TypeError (`ApMonitorSum.FileSummaryAsWritten`).
- ApMonitorSum.FileResults: models the rows as lists. The as-written TypeError is stated by
  `ApMonitorSum.FileSummaryAsWritten`.
- ApMonitorSum.SumFiles: models the rows as lists. The as-written TypeError is stated by
  `ApMonitorSum.AsWrittenReportsNothing`.
- ApMonitorSum.Run: models the rows as lists. As written the script fails or reports
  nothing (`ApMonitorSum.AsWrittenReportsNothing`).
- MonitorRows.CollectFail: models the rows as lists. As written the loop raises TypeError
  first (`MonitorRows.TypeErrorAt`).
- MonitorRows.CollectParsed: models the rows as lists. As written no row is appended
  (`MonitorRows.TupleLoopAppendsNothing`).
- MonitorRows.CollectOwn: models the rows as lists. As written the TypeError is stated by
  `MonitorRows.TypeErrorAt`.
- MonitorRows.ParseEntries: models the rows as lists. As written the TypeError is stated by
  `MonitorRows.TypeErrorAt`.
- `toi` (ap2xls.py:29-33) is defined but never called by ap2xls.py, so it is not modelled.
- FunctionsTable.RowAdd, FunctionsTable.Results: the column order is a parameter. The script
  passes `vap_sorted`, the keys of `global_vap_count` sorted by count, largest first, with
  ties in dictionary insertion order (nttbp-summarize-functinos.py:859). The model keeps the
  counts in a map without that insertion order, so it does not compute `vap_sorted`; the
  contracts hold for every column order.
- AosQuery.ColsGen: `_get_cols_gen` is a lazy generator. Its column lookup runs at the first `next()`,
  and the rows before a short row are yielded before the IndexError is raised. The model
  computes the whole projection at once, and its error replaces all the rows.
- The zip archives and JSON text of esx-apname.py (esx-apname.py:84-98,152-171). The
  survey is taken as its decoded lists, and `--dryrun` and the file writing are not modelled.
- The SSH session of toptalker.py (toptalker.py:42-76) and its ten-second wait. The two
  captures are parameters.
- Floating point:
  - the bitrates of the dp-ses-*.py scripts, and the printing order by bitrate;
  - the per-floor and total averages of arm-state.py, of which only the division by zero
    with no AP counted is modelled;
  - `retry_rate` of retry_rates.py, which is kept as the exact pair (retries, packets).
- RetryRates.Run: the printing loop, which sorts the clients by their floating-point retry rate,
  is not modelled. So an IndexError raised while printing a stored row too short for the
  SNR or Tx_Rate column is not part of its contract.
- PhycapDistrib.Run: the printed summaries are not modelled. These are the top-20 APs by
  user count, the floors and channels in sorted order, and only slots 1 to 3 of each OS's
  stream counts.
- ArmNbrs.ApMonFrame: reading a BSSID that `bss2apn` lacks inserts "" into that
  defaultdict, and the model does not record this. A later read of that BSSID gives "" in
  both cases, so nothing printed depends on it.
- Regular expressions are modelled pattern by pattern as hand-written scanners.
  `\d`, `\w`, `str.isdigit` and `str.lower` are taken over ASCII. Python's Unicode digits and
  letters beyond ASCII are not modelled.
- Python integers are unbounded, like Dafny's. `int()` is modelled for ASCII digits with an
  optional sign, surrounding whitespace and single underscores. `int(x, 16)` also accepts
  a `0x` prefix.
- The other scripts of the repository are not part of this model. Their only logic is
  extraction into counters followed by printing, or they are network clients or
  floating-point reports:
  radar-events.py, radar-events-perap.py, radar-log.py, role-distrib.py, apdb-summary.py,
  ap-mgmt-frame.py, arm-state-30db.py, arm-state-seenby.py, arm-state-dump.py,
  ap-monitor-intf.py, ap-list-nttdata.py, ap-monitor-list-old.py, ap-monitor-list-iap.py,
  ap2xls_denso.py, apcount_permd.py, apdb2xls.py, cli-table.py, silent-sta.py,
  bridge-table-check.py, intf-calc.py, get-fwsessions-mm.py, radio-summary-toputil.py,
  radio-sum-apg.py and utfconv.py.
