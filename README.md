# NetVendor / ShadowVendor in Dafny

NetVendor (and its renamed successor ShadowVendor) reads network-device dumps and reports the hardware vendor behind every MAC address. The dumps are a plain MAC list, a Cisco `show ip arp` table or a Cisco `show mac address-table` listing. The tool writes per-device, per-port and per-vendor reports, a drift table across archived summaries, and SIEM events.

This project models the deterministic core of the tool. Every repository entity the core updates in place is a Dafny `class` whose methods are proved against specification functions. Every pure string or arithmetic function is a Dafny function with lemmas about it.

The modules follow the source files:

- **Vendor lookup state.** `NetVendorOuiSpec`, `NetVendorOui` and `NetVendorOuiManager` model the `OUIManager` of `NetVendor.py`:
  - MAC normalisation and validation;
  - the rotating, rate-limited retry loop over two lookup services, whose HTTP answers come from an oracle sequence;
  - lazy cache saving, batch lookup, cache cleanup and the file-change record.
- **Offline and database OUI managers.** `NetvendorCoreOui` models `netvendor/core/oui_manager.py`. `OuiDatabase` models the top-level `oui_manager.py`.
- **MAC and table-line recognisers.** There is one module per copy:
  - `ShadowCore` for `shadowvendor/core/netvendor.py`;
  - `NetvendorCore` for `netvendor/core/netvendor.py`;
  - `ShadowVendorScriptMac` and `NetVendorScriptMac` for the two scripts;
  - `NetvendorHelpers` for `netvendor/utils/helpers.py`.

  `MacDisagreements` states where the copies disagree.
- **Input handling.** `ShadowVendorApi` models `analyze_file`. `ShadowVendorScriptMain` models the input loop of `ShadowVendor.py`. `DeviceTable` holds what both build.
- **Output writers.** `ShadowVendorOutput`, `NetVendorOutput` and `VendorOutput` model the three `vendor_output_handler.py` copies. They share `PortGrouping` and `VendorCounts`.
- **Small parsers and serialisers:**
  - `DriftAnalysis` and `DriftHistory` for `netvendor/utils/drift_analysis.py`;
  - `ManufLookup` and `OuiCacheUpdate` for `shadowvendor/utils/update_oui_cache.py`;
  - `SiemExport` for `netvendor/utils/siem_export.py`.
- **Configuration layering.** `AppConfig` covers `shadowvendor/config.py` and `netvendor/config.py`.
- **Test-data generators.** `TestData`, `TestRows` and `TestTables` cover `generator_test.py` and `generate_test_data.py`.
- **Import and call surface.** `PackageSurface` models the names the package's test module imports and the keywords it passes.
- **Shared support.** `Common`, `Text`, `MacText`, `Dicts`, `Sorting`, `Tally` and `HandlerInput` model the Python facilities the code relies on:
  - `str` operations and `int()`;
  - insertion-ordered dicts;
  - `sorted`, `Counter` and `set`.

Conventions:

- The vendor lookup an output writer calls is a function parameter.
- A file the code reads is given as its lines or as a parsed value. A file it writes is returned as its rows or lines.
- Random draws, the permutation `random.shuffle` chooses, HTTP answers and digests are parameters.

## Model

| member | source | states |
|---|---|---|
| AppConfig.Updated | netvendor/config.py:196-200 | _update_config never adds a key: the keys are the configuration's, in its order |
| AppConfig.UpdatedGet | netvendor/config.py:196-200 | a key the configuration has and the updates carry takes the update's value; every other key keeps its value |
| AppConfig.CoercedPairs | netvendor/config.py:113-125 | one converted entry per entry of the INI section |
| AppConfig.CoerceKeepsText | netvendor/config.py:116-125 | an INI value stays text exactly when it is non-empty and, lower-cased, is no boolean keyword and not "none" |
| AppConfig.CoerceIgnoresCase | netvendor/config.py:116-122 | keyword values that agree after lower-casing convert alike |
| AppConfig.CoerceBool | netvendor/config.py:116-120 | an INI value becomes a boolean exactly for the eight keywords, and True exactly for true/yes/1/on |
| AppConfig.CoerceNull | netvendor/config.py:121-122 | an INI value becomes None exactly when it is empty or "none" in any case |
| AppConfig.EnvAppliedGet | netvendor/config.py:186-194 | after _load_from_env a key whose variable is set has the variable's converted value; every other key keeps its value |
| AppConfig.EnvAppliedKeys | netvendor/config.py:186-194 | the environment never adds a key when every mapping row names a configuration key |
| AppConfig.EnvBool | netvendor/config.py:189-190 | a boolean variable is always a boolean, True exactly for true/yes/1/on in any case |
| AppConfig.EnvText | netvendor/config.py:191-192 | a text variable that is set but empty gives None, a non-empty one its text |
| AppConfig.DirCandidates | netvendor/config.py:68-71 | one candidate path per extension |
| AppConfig.Candidates | netvendor/config.py:67-85 | fifteen candidates: five extensions in each of three directories |
| AppConfig.FirstExistingSpec | netvendor/config.py:67-87 | the path found exists and no earlier candidate exists; nothing is found exactly when no candidate exists |
| AppConfig.FirstExistingConcat | netvendor/config.py:67-87 | searching one directory after another finds the first directory's file when it has one, else the later directories' |
| AppConfig.ExplicitFileOnly | netvendor/config.py:61-65 | an explicit config_file is the only path considered: it when it exists, else nothing |
| AppConfig.SearchOrder | netvendor/config.py:59-87 | without an explicit file, the file found is the first existing candidate in search order, and nothing is found exactly when none exists |
| AppConfig.EnvMappingKeys | netvendor/config.py:175-184 | every variable of env_mapping names a default key |
| AppConfig.LoadedKeys | netvendor/config.py:37-57 | a loaded configuration has exactly the default keys, in their order |
| AppConfig.Layering | netvendor/config.py:37-57 | each key's value is the environment's when its variable is set, else the file's when the file sets it, else the default |
| AppConfig.IniUpdatesDistinct | netvendor/config.py:108-127 | the updates read from an INI section have distinct keys |
| AppConfig.NothingSetGivesDefaults | netvendor/config.py:37-57 | with no file found and no variable set the configuration is the defaults |
| AppConfig.EnvUnset | netvendor/config.py:186-188 | when no variable is set the environment pass changes nothing |
| AppConfig.MappingSection | netvendor/config.py:134-138 | a YAML/TOML document whose app entry is not a mapping makes the load raise; one without an app entry is applied whole |
| AppConfig.Config.Init | netvendor/config.py:25-34 | the object stores the file argument and starts with an empty configuration |
| AppConfig.Config.LoadConfig | netvendor/config.py:37-57 | the configuration becomes the layered one, or the error that escaped the file loader is returned |
| AppConfig.Config.FindConfigFile | netvendor/config.py:59-87 | returns the path of the search specification |
| AppConfig.Config.SearchDir | netvendor/config.py:68-71 | one directory's loop returns its first existing candidate |
| AppConfig.Config.LoadFromFile | netvendor/config.py:89-106 | the file's updates are applied when the loader for its suffix succeeds; on its error the configuration is unchanged |
| AppConfig.Config.LoadIni | netvendor/config.py:108-127 | the converted section values are applied to the configuration |
| AppConfig.Config.LoadFromEnv | netvendor/config.py:173-194 | the configuration becomes the environment-applied one |
| AppConfig.Config.UpdateConfig | netvendor/config.py:196-200 | the configuration becomes the updated one |
| AppConfig.Config.GetValue | netvendor/config.py:202-204 | a present key's value, otherwise the default |
| AppConfig.Config.ToDict | netvendor/config.py:206-208 | a copy with the same keys in the same order and the same value under every key |
| AppConfig.LoadConfigObject | netvendor/config.py:211-226 | a fresh object holding the layered configuration, or the escaped error |
| DeviceTable.InputKind.Name | shadowvendor/api.py:149-157 | the reported input_type is one of "mac_list", "arp_table", "mac_table" |
| DeviceTable.ScanCounts | shadowvendor/api.py:170-209 | stored MACs are distinct; devices <= mac_count <= line_count <= lines, and port_count <= mac_count |
| DeviceTable.StepKeys | shadowvendor/api.py:182-205 | after one line a MAC is stored exactly when it was before or the line yielded it |
| DeviceTable.ScanKeys | shadowvendor/api.py:170-209 | a MAC is in the table exactly when some line yields it |
| DeviceTable.StepGet | shadowvendor/api.py:182-205 | a device line replaces the entry under its MAC and leaves every other entry |
| DeviceTable.LaterLineWins | shadowvendor/api.py:170-209 | the entry stored for a MAC is the one of the last line that yields that MAC |
| DeviceTable.NoDevices | shadowvendor/api.py:211-212 | the table is empty, so the run raises, exactly when no line yields a device |
| DeviceTable.KeysFromRows | shadowvendor/api.py:179-204 | every stored key passed the per-line MAC check |
| DeviceTable.CollectDevices | shadowvendor/api.py:170-209 | the loop computes the table and the three counters of the scan specification |
| DriftAnalysis.ParseVendorSummaryFile | netvendor/utils/drift_analysis.py:41-123 | the loop returns the snapshot of the parse specification: the file's stem, the vendors read after the header, and the metadata fields |
| DriftAnalysis.FoldConcat | netvendor/utils/drift_analysis.py:68-99 | reading lines a then b is reading a, then b from the state a left |
| DriftAnalysis.AfterHeader | netvendor/utils/drift_analysis.py:76-99 | once the header is found every later line is read on its own as a row, and the rows are stored in order |
| DriftAnalysis.NoHeaderKeeps | netvendor/utils/drift_analysis.py:71-75 | before the header, lines that are not the header change nothing |
| DriftAnalysis.NoHeaderNoVendors | netvendor/utils/drift_analysis.py:68-75 | a file without a header line gives no vendors |
| DriftAnalysis.HeaderSkipped | netvendor/utils/drift_analysis.py:71-75 | everything up to and including the first header line is skipped |
| DriftAnalysis.ParsedRows | netvendor/utils/drift_analysis.py:68-99 | the vendors are the rows read from the lines after the first header, stored in order |
| DriftAnalysis.LaterRowWins | netvendor/utils/drift_analysis.py:97-99 | a vendor's entry is that of its last row |
| DriftAnalysis.UnnamedKept | netvendor/utils/drift_analysis.py:97-99 | rows for other vendors leave a vendor's entry unchanged |
| DriftAnalysis.StoredNames | netvendor/utils/drift_analysis.py:97-99 | a vendor is stored exactly when it was before or some row names it |
| DriftAnalysis.FoldNewlines | netvendor/utils/drift_analysis.py:66-70 | the newline readlines() keeps on each line does not change the result |
| DriftAnalysis.ShortLineSkipped | netvendor/utils/drift_analysis.py:81-83 | a line with fewer than three words is skipped |
| DriftAnalysis.HeaderStep | netvendor/utils/drift_analysis.py:71-75 | the header line switches reading on and stores nothing |
| DriftAnalysis.SummaryHeaderIsHeader | netvendor/utils/drift_analysis.py:73 | the header line the summary writer emits is recognised as the header |
| DriftAnalysis.HeadRead | netvendor/utils/drift_analysis.py:68-83 | the summary's lines up to its rule leave the header found and no vendor stored |
| DriftAnalysis.RowLineWords | netvendor/utils/drift_analysis.py:81 | a written summary row splits into the vendor's words, the count and the percentage with its '%' |
| DriftAnalysis.RowOfWords | netvendor/utils/drift_analysis.py:81-99 | such a row reads back as (the words joined by one space, count, percentage) |
| DriftAnalysis.BodyRows | netvendor/utils/drift_analysis.py:81-99 | every row line the summary writer emits reads back as its vendor, count and percentage |
| DriftAnalysis.SummaryRoundTrip | netvendor/utils/drift_analysis.py:41-99 | parsing the lines the summary writer emits gives back exactly its rows, header found |
| DriftAnalysis.SummaryTextRoundTrip | netvendor/utils/drift_analysis.py:41-99 | parsing a written vendor_summary.txt gives each vendor of the devices with its count and percentage, and no other vendor |
| DriftAnalysis.SummaryTextParsed | netvendor/utils/drift_analysis.py:41-99 | parsing a written vendor_summary.txt gives the summary's rows |
| DriftAnalysis.SummaryLookup | netvendor/utils/drift_analysis.py:97-99 | the rows read back hold each vendor once, with its number of devices and its percentage |
| DriftHistory.Labels | netvendor/utils/drift_analysis.py:169 | one label per snapshot, its name, in snapshot order |
| DriftHistory.MetaRow | netvendor/utils/drift_analysis.py:180-189 | a metadata row is the field's name, then each snapshot's value or "" |
| DriftHistory.VendorRow | netvendor/utils/drift_analysis.py:198-206 | a vendor row is the vendor, then one cell per snapshot: its formatted percentage, or "" when absent |
| DriftHistory.VendorRows | netvendor/utils/drift_analysis.py:198-206 | one row per vendor of the column, in column order |
| DriftHistory.WriteVendorDriftCsv | netvendor/utils/drift_analysis.py:149-206 | nothing is written for no snapshots; otherwise exactly the rows of the drift-table specification |
| DriftHistory.CollectVendors | netvendor/utils/drift_analysis.py:164-166 | the vendors of all snapshots, each once |
| DriftHistory.AddKeys | netvendor/utils/drift_analysis.py:165-166 | adding one snapshot's vendors to the set keeps it the de-duplicated list of everything seen |
| DriftHistory.BuildRow | netvendor/utils/drift_analysis.py:199-206 | the inner loop builds the vendor's row |
| DriftHistory.AllVendorsIn | netvendor/utils/drift_analysis.py:164-166 | a vendor is collected exactly when some snapshot has it |
| DriftHistory.VendorColumnSpec | netvendor/utils/drift_analysis.py:164-168 | the vendor column is sorted, has no repeats, and holds exactly the vendors some snapshot has |
| DriftHistory.DriftRowsLayout | netvendor/utils/drift_analysis.py:172-206 | the CSV is the label row, three metadata rows, an empty row, the header, then one row per vendor in strictly increasing order, each as wide as the header |
| DriftHistory.DriftCell | netvendor/utils/drift_analysis.py:198-206 | for every vendor some snapshot has, its row's cell for snapshot i is that snapshot's formatted percentage or "" |
| DriftHistory.DriftRowAt | netvendor/utils/drift_analysis.py:198-206 | row 6 + t is the row of the t-th vendor |
| DriftHistory.SummaryNames | netvendor/utils/drift_analysis.py:136 | the names kept are exactly those matching vendor_summary*.txt |
| DriftHistory.LoadSnapshotsFromDirectory | netvendor/utils/drift_analysis.py:126-146 | the loop returns the snapshots of the loading specification, or the error for a path that is not a directory |
| DriftHistory.LoadOne | netvendor/utils/drift_analysis.py:139-144 | one file gives its snapshot, or nothing when reading it raises |
| DriftHistory.LoadStep | netvendor/utils/drift_analysis.py:139-144 | each file adds its snapshot, when it has one, after those before it |
| DriftHistory.AnalyzeDrift | netvendor/utils/drift_analysis.py:209-235 | returns the path and rows of the analysis specification, or its error |
| DriftHistory.LoadedInOrder | netvendor/utils/drift_analysis.py:136-146 | no more snapshots than files, and when every file loads, one snapshot per file in name order |
| DriftHistory.SortedSummariesSpec | netvendor/utils/drift_analysis.py:136 | the files are taken in sorted order, each once, exactly those matching the pattern |
| DriftHistory.SnapshotAtSpec | netvendor/utils/drift_analysis.py:41-123 | a file gives a snapshot exactly when it is readable and its metadata does not raise; the snapshot is named by the file's stem and holds the vendors parsed from it |
| DriftHistory.LoadIgnoresOtherFiles | netvendor/utils/drift_analysis.py:136 | a file not matching the pattern changes nothing |
| DriftHistory.AnalyzeDriftErrors | netvendor/utils/drift_analysis.py:221-229 | it fails for a plain file in the way, raises RuntimeError exactly when no snapshot loads, never reports "not a directory" (the directory is created first), and an absent directory gives no snapshots |
| DriftHistory.AnalyzeDriftPath | netvendor/utils/drift_analysis.py:231-235 | the CSV goes to the given path, or to history_dir/vendor_drift.csv |
| DriftHistory.DriftPathListed | shadowvendor/api.py:282-284 | the path analyze_drift writes is the path analyze_file lists |
| DriftHistory.SingleFileLoaded | netvendor/utils/drift_analysis.py:126-146 | a directory holding one summary gives exactly its snapshot |
| DriftHistory.SingleSnapshotCells | netvendor/utils/drift_analysis.py:198-206 | with one snapshot each of its vendors has a two-cell row holding its formatted percentage |
| DriftHistory.SingleFileDrift | netvendor/utils/drift_analysis.py:209-235 | analysing a directory with one summary succeeds, and each vendor read has its row and percentage |
| DriftHistory.ArchivedSummaryInDrift | netvendor/utils/drift_analysis.py:209-235 | an archived vendor_summary.txt as the writer emits it yields a drift row for each vendor with the summary's own percentage |
| MacDisagreements.SevenPairsSplit | ShadowVendor.py:42-69 | for any twelve hex digits plus a seventh hex pair, ShadowVendor.py's is_mac_address accepts the colon form and the packaged netvendor/core/netvendor.py:26-37 rejects it |
| MacDisagreements.SevenPairsAccepted | ShadowVendor.py:55-69 | ShadowVendor.py's check takes the first twelve digits and ignores the seventh pair |
| MacDisagreements.MaskedCleanedLong | netvendor/core/netvendor.py:30-32 | a MAC with a "/mask" suffix is longer than twelve once separators are removed, so the packaged check refuses it |
| MacDisagreements.MaskSplit | shadowvendor/core/netvendor.py:22-71 | every prefix-length mask up to 48 is accepted by the ShadowVendor core and rejected by the NetVendor core |
| MacDisagreements.CiscoDotsSplit | shadowvendor/core/netvendor.py:73-92 | a Cisco dotted MAC (three dot groups) is a MAC to the NetVendor core but not an ARP-table MAC, which needs four dot groups |
| MacDisagreements.ShortRowPortSplit | netvendor/core/netvendor.py:62-80 | a non-ARP line of two or three words ending in a Gi/Fa/Te/Eth port gives that port in the packaged parser and None in NetVendor.py:122-147, which needs four words |
| MacDisagreements.LowerHeaderSplit | netvendor/utils/helpers.py:5-21 | a lower-case header containing "mac address" is "generic" to the packaged helper and not to NetVendor.py:537-549, which lower-cases first |
| MacDisagreements.ArpFormatSplit | netvendor/utils/helpers.py:15-16 | a line containing "Internet" is "arp" to the packaged helper, a kind NetVendor.py:537-549 never returns |
| ManufLookup.ManufCacheNeverHits | netvendor/core/oui_manager.py:352-361 | over a cache built by parse_manuf_data from lines whose OUIs keep their separators, get_vendor answers None for every MAC |
| ManufLookup.CiscoLineMisses | shadowvendor/utils/update_oui_cache.py:53-66 | the cache built from "00:00:0C<TAB>Cisco" gives no vendor for 00000C123456 nor for 00:00:0C:12:34:56 |
| ManufLookup.CiscoLongKey | shadowvendor/utils/update_oui_cache.py:63-66 | the Cisco line is stored under an eight-character key |
| ManufLookup.CiscoEntry | shadowvendor/utils/update_oui_cache.py:59-66 | the Cisco line is accepted with the key "00:00:0C" verbatim and the vendor "Cisco" |
| ManufLookup.ManufEntryExact | shadowvendor/utils/update_oui_cache.py:55-66 | a line "a<TAB>b" with no comment mark and no surrounding spaces gives exactly the entry (a, b) |
| ManufLookup.ManufEntryFixed | shadowvendor/utils/update_oui_cache.py:55-66 | the corrected entry exists exactly when the parser accepts the line, keeps its vendor, and has a key of at most six characters |
| ManufLookup.ManufFixedHits | netvendor/core/oui_manager.py:352-361 | over the corrected cache, a MAC not yet failed gets the vendor of the last line whose key is its six-character OUI |
| ManufLookup.CiscoLineKeyMatches | netvendor/core/oui_manager.py:356 | the corrected Cisco entry is keyed "00000C", the key get_vendor forms for 00000C123456 |
| ManufLookup.CiscoFixedEntry | shadowvendor/utils/update_oui_cache.py:63-66 | the corrected Cisco entry is ("00000C", "Cisco") |
| ManufLookup.FixedEntryOf | shadowvendor/utils/update_oui_cache.py:63-66 | the corrected entry of an accepted line is its normalised key with the same vendor |
| ManufLookup.CiscoNormalized | shadowvendor/utils/update_oui_cache.py:63 | normalising "00:00:0C" gives "00000C" |
| ManufLookup.CiscoMacKey | netvendor/core/oui_manager.py:356 | the key of 00000C123456 is "00000C" |
| NetvendorCore.CleanedHex | netvendor/core/netvendor.py:30 | a string of hex digits and separators cleans to lower-case hex with the separators gone |
| NetvendorCore.RemoveHex | netvendor/core/netvendor.py:30 | removing the separators from such a string leaves only hex digits |
| NetvendorCore.TwelveHexAccepted | netvendor/core/netvendor.py:26-37 | twelve hex digits after cleaning is accepted |
| NetvendorCore.MacOverHexIff | netvendor/core/netvendor.py:26-37 | for hex and separators only, the check accepts exactly when twelve characters remain after removing separators |
| NetvendorCore.CleanedSpelling | netvendor/core/netvendor.py:30-37 | every spelling that reduces to the same twelve hex digits cleans to them in lower case and is accepted |
| NetvendorCore.SeparatorStylesAccepted | netvendor/core/netvendor.py:26-37 | bare, colon, dash and Cisco-dot spellings of any twelve hex digits are accepted |
| NetvendorCore.SevenPairsRejected | netvendor/core/netvendor.py:31-32 | seven colon-separated pairs are rejected |
| NetvendorCore.ForeignCharacterRejected | netvendor/core/netvendor.py:33-37 | any character that is neither a separator nor hex makes the check fail |
| NetvendorCore.InvalidCharacterExample | netvendor/core/netvendor.py:33-37 | 00:11:22:33:44:GG is rejected |
| NetvendorCore.ContainsStart | netvendor/core/netvendor.py:44-48 | a line containing a word contains every prefix of it |
| NetvendorCore.ThirdHeaderSubsumed | netvendor/core/netvendor.py:44-48 | the third header ("VLAN ID", "MAC Address") adds nothing: a header is either of the first two |
| NetvendorCore.WordsOfRow | netvendor/core/netvendor.py:51 | stripping and splitting "w rest" gives w followed by the words of rest |
| NetvendorCore.TwoWordRow | netvendor/core/netvendor.py:51 | the first two words of "a b rest" are a and b |
| NetvendorCore.TableRowRecognised | netvendor/core/netvendor.py:39-60 | any line "<vlan 1..4094> <MAC> ..." is a MAC-table line |
| NetvendorCore.VlanMacWords | netvendor/core/netvendor.py:51-60 | a line whose first words are a VLAN and a MAC is a MAC-table line |
| NetvendorCore.LetterWordNoInt | netvendor/core/netvendor.py:54-58 | a word starting with a letter is no integer |
| NetvendorCore.ArpRowRejected | netvendor/core/netvendor.py:39-60 | an ARP line starting "Internet" is no MAC-table line unless it holds a header |
| NetvendorCore.NonVlanFirstWord | netvendor/core/netvendor.py:53-58 | a line whose first word is no VLAN in 1..4094 is no MAC-table line unless it holds a header |
| NetvendorCore.ParsePortInfo | netvendor/core/netvendor.py:62-80 | a port is returned only for a non-ARP line of two or more words and is its last word, prefixed Gi/Fa/Te/Eth or an integer; every such last word is returned |
| NetvendorCore.NumericPortParsed | netvendor/core/netvendor.py:76-78 | a line ending in a number gives that number as its port |
| NetvendorCoreOui.InitSpec | netvendor/core/oui_manager.py:50-95 | after construction every state is persisted; a missing or corrupt file loads as empty; a parsed file loads as stored; the failed-lookups file is written once, empty, exactly when it was missing |
| NetvendorCoreOui.EmptyFilesLoaded | netvendor/core/oui_manager.py:84-95 | loading the empty file written for a missing one equals loading nothing |
| NetvendorCoreOui.InitPersisted | netvendor/core/oui_manager.py:50-95 | a freshly constructed manager's files hold its state |
| NetvendorCoreOui.OuiKey | netvendor/core/oui_manager.py:356 | the key is the first six characters of the MAC (fewer if shorter), upper-cased |
| NetvendorCoreOui.AnswerFor | netvendor/core/oui_manager.py:352-361 | a vendor is found exactly when the MAC has not failed and its key is cached, and is the cached vendor; a miss adds the MAC to the failed set; nothing else changes |
| NetvendorCoreOui.GetVendorRepeat | netvendor/core/oui_manager.py:352-361 | asking twice gives the same answer and changes nothing the second time |
| NetvendorCoreOui.AnswerAllGrow | netvendor/core/oui_manager.py:352-361 | lookups only add failed MACs and never change the cache |
| NetvendorCoreOui.MissIsPermanent | netvendor/core/oui_manager.py:354-355 | once a MAC misses, it misses after any further lookups |
| NetvendorCoreOui.SeparatedMacMisses | netvendor/core/oui_manager.py:356-360 | a MAC with a separator in its third character misses over a hex-keyed cache and is recorded as failed |
| NetvendorCoreOui.KeyIgnoresCase | netvendor/core/oui_manager.py:356 | the key does not depend on the MAC's case |
| NetvendorCoreOui.VendorOuisSpec | netvendor/core/oui_manager.py:327-338 | an OUI is returned exactly when some entry maps it to the vendor, ignoring case |
| NetvendorCoreOui.VendorOuisByGet | netvendor/core/oui_manager.py:327-338 | with distinct keys, an OUI is returned exactly when its cached vendor matches ignoring case |
| NetvendorCoreOui.VendorOuisCase | netvendor/core/oui_manager.py:334-336 | vendors equal up to case give the same OUIs |
| NetvendorCoreOui.RecordFile | netvendor/core/oui_manager.py:368-371 | recording a file's metadata keeps the files in step with the state |
| NetvendorCoreOui.UpdateThenUnchanged | netvendor/core/oui_manager.py:340-371 | a file just recorded is unchanged; recording one file leaves every other file's answer alone; an unrecorded file has changed |
| NetvendorCoreOui.AnyEditNoticed | netvendor/core/oui_manager.py:340-350 | with a collision-free digest, any change of content is noticed |
| NetvendorCoreOui.HashedBlocks | netvendor/core/oui_manager.py:138-144 | the file is read in non-empty blocks of at most 4096 bytes, all full but the last, which together are the content |
| NetvendorCoreOui.OfflineManager.constructor | netvendor/core/oui_manager.py:50-95 | the new manager's state is the initial state |
| NetvendorCoreOui.OfflineManager.SaveCache | netvendor/core/oui_manager.py:106-109 | the cache is written and nothing else changes |
| NetvendorCoreOui.OfflineManager.SaveFailedLookups | netvendor/core/oui_manager.py:363-366 | the failed set is written and nothing else changes |
| NetvendorCoreOui.OfflineManager.SaveProcessedFiles | netvendor/core/oui_manager.py:373-376 | the processed-files map is written and nothing else changes |
| NetvendorCoreOui.OfflineManager.LoadCache | netvendor/core/oui_manager.py:97-104 | an existing file replaces the cache, a corrupt one with the empty cache; a missing file leaves it |
| NetvendorCoreOui.OfflineManager.LoadFailedLookups | netvendor/core/oui_manager.py:111-118 | the same for the failed set |
| NetvendorCoreOui.OfflineManager.LoadProcessedFiles | netvendor/core/oui_manager.py:120-127 | the same for the processed-files map |
| NetvendorCoreOui.OfflineManager.GetVendor | netvendor/core/oui_manager.py:352-361 | the answer and new state are those of the lookup specification, and the files stay in step |
| NetvendorCoreOui.OfflineManager.GetVendorOuis | netvendor/core/oui_manager.py:327-338 | the loop returns the OUIs of the specification |
| NetvendorCoreOui.OfflineManager.HasFileChanged | netvendor/core/oui_manager.py:340-350 | the answer is that of the change specification |
| NetvendorCoreOui.OfflineManager.UpdateFileMetadata | netvendor/core/oui_manager.py:368-371 | the state becomes the recorded state |
| NetvendorHelpers.GetFormatType | netvendor/utils/helpers.py:5-21 | one of four kinds; "arp" exactly when the line contains "Internet"; a header line not classed otherwise carries the upper-case VLAN/MAC Address words |
| NetvendorHelpers.TableFormatsAreHeaders | netvendor/utils/helpers.py:17-20 | a line classed cisco or hp is a MAC-table line to netvendor/core/netvendor.py |
| NetvendorHelpers.UpperNotInLowered | netvendor/utils/helpers.py:15-20 | a lower-case line contains no word with a capital |
| NetvendorHelpers.LowerCaseLineIsGeneric | netvendor/utils/helpers.py:5-21 | every lower-case line is generic |
| NetVendorOui.InitValid | NetVendor.py:202-236 | a new manager satisfies the invariant, and a missing or corrupt file leaves its table empty |
| NetVendorOui.Elapse | NetVendor.py:351-358 | time passing sets the clock to the new time |
| NetVendorOui.ElapseValid | NetVendor.py:351-358 | time passing keeps the invariant, moves no service's last call, and changes nothing but the clock |
| NetVendorOui.PutNormalised | NetVendor.py:397-399 | storing a normalised OUI keeps the cache's keys distinct and normalised |
| NetVendorOui.AfterLookupRotation | NetVendor.py:397-420 | what a lookup does to the cache and failed set does not depend on the services' state |
| NetVendorOui.GetVendorValid | NetVendor.py:360-420 | a lookup keeps the invariant |
| NetVendorOui.GetVendorRequests | NetVendor.py:360-391 | no request is made exactly when the answer is already known (invalid MAC, cached or failed OUI), in which case nothing changes; otherwise at most twice the number of services |
| NetVendorOui.KnownAnswers | NetVendor.py:362-373 | an invalid MAC is "Unknown"; a cached OUI gives its vendor; an uncached failed OUI is "Unknown" |
| NetVendorOui.GetVendorMiss | NetVendor.py:375-420 | for an unknown OUI, the services' replies decide: a vendor found is cached (counted towards the lazy save) and returned; otherwise "Unknown" is returned and the OUI is added to the failed set and written |
| NetVendorOui.GetVendorRemembers | NetVendor.py:360-420 | asking again for the same MAC returns the same vendor with no request and no change |
| NetVendorOui.SameOuiSameAnswer | NetVendor.py:339-344 | two MACs with the same digits, ignoring case and separators, get the same answer and state |
| NetVendorOui.LookupFrom | NetVendor.py:444-451 | looking up the unknown MACs one at a time keeps the invariant |
| NetVendorOui.FirstPassSnoc | NetVendor.py:427-440 | the first pass handles each MAC in order: a known answer is stored, an unknown MAC is queued |
| NetVendorOui.FirstPassSpec | NetVendor.py:427-440 | after the first pass each listed MAC holds its known answer, nothing else is stored, and exactly the listed MACs without one are queued |
| NetVendorOui.BatchWithoutProgress | NetVendor.py:442-453 | without a progress bar no lookup is made: the manager is unchanged and only known answers are returned |
| NetVendorOui.LookupStep | NetVendor.py:449-451 | one step of the second pass looks up one MAC and stores its answer |
| NetVendorOui.LookupFromKeys | NetVendor.py:449-451 | the second pass adds exactly the queued MACs to the results |
| NetVendorOui.StateBefore | NetVendor.py:449-451 | the manager's state before the i-th lookup of the second pass satisfies the invariant |
| NetVendorOui.SecondPassStep | NetVendor.py:449-451 | the i-th step stores the i-th MAC's answer and moves to the next state |
| NetVendorOui.LookupFromAfter | NetVendor.py:449-451 | the second pass ends in the state after all queued lookups |
| NetVendorOui.LookupFromOthers | NetVendor.py:449-451 | a MAC not queued keeps its first-pass result |
| NetVendorOui.LookupFromLast | NetVendor.py:449-451 | a queued MAC holds the answer of its last lookup |
| NetVendorOui.BatchWithProgress | NetVendor.py:422-453 | with a progress bar every listed MAC gets a result and nothing else; known answers are kept; each queued MAC holds the answer of its last lookup in order; the manager ends in the state after all lookups |
| NetVendorOui.CleanupResult | NetVendor.py:455-512 | cleanup returns the new size and the number of entries dropped |
| NetVendorOui.CleanupSpec | NetVendor.py:455-512 | cleanup keeps the invariant; the two counts add to the old size; every key left is a valid six-character OUI |
| NetVendorOui.UpdateThenUnchanged | NetVendor.py:275-290 | a file just recorded has not changed, and the file written holds its metadata |
| NetVendorOuiManager.OuiManager.constructor | NetVendor.py:202-236 | the new object's state is the initial state |
| NetVendorOuiManager.OuiManager.LoadCache | NetVendor.py:306-319 | an existing file replaces the cache with its normalised entries, a corrupt one with the empty cache; a missing file leaves it |
| NetVendorOuiManager.OuiManager.LoadFailedLookups | NetVendor.py:292-299 | the same for the failed set |
| NetVendorOuiManager.OuiManager.LoadProcessedFiles | NetVendor.py:238-245 | the same for the processed-files map |
| NetVendorOuiManager.OuiManager.SaveCache | NetVendor.py:321-337 | the new state is the lazy save of the specification |
| NetVendorOuiManager.OuiManager.UniqueCache | NetVendor.py:330-333 | the loop keeps the first entry of each vendor |
| NetVendorOuiManager.OuiManager.SaveFailedLookups | NetVendor.py:301-304 | the failed set is written and nothing else changes |
| NetVendorOuiManager.OuiManager.SaveProcessedFiles | NetVendor.py:247-250 | the processed-files map is written and nothing else changes |
| NetVendorOuiManager.OuiManager.Elapse | NetVendor.py:351-358 | the clock moves to the given time and the invariant holds |
| NetVendorOuiManager.OuiManager.RateLimit | NetVendor.py:351-358 | the current service is stamped as the specification says and nothing else changes |
| NetVendorOuiManager.OuiManager.GetVendor | NetVendor.py:360-420 | the vendor and new state are those of the lookup specification |
| NetVendorOuiManager.OuiManager.RotateServices | NetVendor.py:375-420 | the retry loop ends in the state and answer of the specification's run over the replies |
| NetVendorOuiManager.OuiManager.Attempt | NetVendor.py:378-414 | one attempt ends the loop exactly on a terminal reply and records its outcome; otherwise it only stamps, backs off or advances the rotation |
| NetVendorOuiManager.OuiManager.BackOff | NetVendor.py:402-404 | a 429 multiplies the current service's interval by 1.5 and changes nothing else |
| NetVendorOuiManager.OuiManager.NextService | NetVendor.py:409-414 | the index moves to the next service, and the manager sleeps one second when it is back at the first one tried |
| NetVendorOuiManager.OuiManager.RecordVendor | NetVendor.py:397-399 | a vendor found is stored and a lazy save follows |
| NetVendorOuiManager.OuiManager.RecordFailure | NetVendor.py:416-418 | the OUI is added to the failed set, which is written |
| NetVendorOuiManager.OuiManager.BatchLookupVendors | NetVendor.py:422-453 | the results and new state are those of the batch specification |
| NetVendorOuiManager.OuiManager.SortOutMacs | NetVendor.py:427-440 | the first loop gives the results and queue of the first-pass specification |
| NetVendorOuiManager.OuiManager.CleanupCache | NetVendor.py:455-512 | the counts and new state are those of the cleanup specification |
| NetVendorOuiManager.OuiManager.NormalizedCache | NetVendor.py:474-478 | the loop keeps the valid keys, normalised, the later one winning |
| NetVendorOuiManager.OuiManager.HasFileChanged | NetVendor.py:275-285 | changed exactly when the file is unrecorded or its size, time or hash differ |
| NetVendorOuiManager.OuiManager.UpdateFileMetadata | NetVendor.py:287-290 | the state becomes the recorded state |
| NetVendorOuiManager.StandardizedDistinct | NetVendor.py:481-484 | standardising vendor names keeps the keys distinct |
| NetVendorOuiManager.CopyEntries | NetVendor.py:488-493 | the dedup loop of cleanup copies every entry unchanged |
| NetVendorOuiSpec.NormalizeMac | NetVendor.py:339-344 | the key is a prefix, at most six long, of the upper-cased MAC with '.', ':' and '-' removed |
| NetVendorOuiSpec.ValidMacKey | NetVendor.py:346-349 | a valid MAC's key is six upper-case characters with no separator |
| NetVendorOuiSpec.NormalizeIdempotent | NetVendor.py:339-344 | normalising a key again changes nothing |
| NetVendorOuiSpec.UpperRemoveCommute | NetVendor.py:342 | upper-casing and removing separators commute |
| NetVendorOuiSpec.SameKey | NetVendor.py:339-344 | two MACs equal up to case and separators have the same key |
| NetVendorOuiSpec.CallTime | NetVendor.py:351-358 | a call is made no earlier than now and at least the service's interval after its last call |
| NetVendorOuiSpec.Stamp | NetVendor.py:351-358 | stamping keeps the service list's length and the current service |
| NetVendorOuiSpec.Advance | NetVendor.py:400-414 | after a non-terminal reply the rotation keeps its services |
| NetVendorOuiSpec.Run | NetVendor.py:375-418 | the retry loop makes at least one and at most 2n attempts, and gives up exactly when every attempt failed without a terminal reply |
| NetVendorOuiSpec.RunStep | NetVendor.py:409-414 | a non-terminal reply moves on to the next attempt |
| NetVendorOuiSpec.RunExits | NetVendor.py:395-408 | a vendor found ends the loop with that vendor, a 404 with the OUI absent; past the limit the loop gives up |
| NetVendorOuiSpec.RunEnds | NetVendor.py:375-418 | every attempt before the last was non-terminal; a hit and an absence come from the last reply; giving up means all 2n replies were non-terminal |
| NetVendorOuiSpec.RunStopsAt | NetVendor.py:375-418 | the loop stops at the first terminal reply |
| NetVendorOuiSpec.NotFoundStops | NetVendor.py:405-408 | the first 404 ends the lookup as absent |
| NetVendorOuiSpec.EmptyVendorFallsThrough | NetVendor.py:396-400 | an empty or "Unknown" body counts as a failed attempt |
| NetVendorOuiSpec.StampMonotone | NetVendor.py:351-358 | stamping moves no clock or last call backwards and keeps the intervals positive |
| NetVendorOuiSpec.AdvanceMonotone | NetVendor.py:400-414 | the same for advancing |
| NetVendorOuiSpec.RunMonotone | NetVendor.py:375-418 | the same for a whole run |
| NetVendorOuiSpec.RateLimitReset | NetVendor.py:354-356 | once the interval has passed the call is made at once |
| NetVendorOuiSpec.SpacedAfterWaiting | NetVendor.py:351-358 | two calls to the same service are at least its interval apart |
| NetVendorOuiSpec.CallSpacing | NetVendor.py:351-358 | a call follows the last one by at least the interval |
| NetVendorOuiSpec.BackoffOnly | NetVendor.py:402-404 | a 429 multiplies only the current service's interval by 1.5 |
| NetVendorOuiSpec.Rotate | NetVendor.py:409 | rotating stays inside the service list |
| NetVendorOuiSpec.NextCursor | NetVendor.py:409 | the next index wraps around the service list |
| NetVendorOuiSpec.RotateShort | NetVendor.py:409 | a rotation that does not wrap adds the steps |
| NetVendorOuiSpec.RotateSplit | NetVendor.py:409 | rotating in two parts is rotating by their sum |
| NetVendorOuiSpec.FullTurn | NetVendor.py:409-414 | n steps bring the index back to where it started |
| NetVendorOuiSpec.RunCursor | NetVendor.py:375-414 | after k attempts the index is the start rotated by the attempts that moved it |
| NetVendorOuiSpec.GaveUpTwoRounds | NetVendor.py:377-418 | a lookup that gives up made 2n attempts and leaves the index where it started |
| NetVendorOuiSpec.PendingAfter | NetVendor.py:321-328 | the counter resets exactly when the cache is written, and otherwise grows by one |
| NetVendorOuiSpec.FiftyFirstWrites | NetVendor.py:321-328 | from zero, fifty unforced saves only count and the fifty-first writes |
| NetVendorOuiSpec.Values | NetVendor.py:332 | the values of the cache, in order |
| NetVendorOuiSpec.DistinctValuesSnoc | NetVendor.py:330-333 | adding an entry with a new vendor keeps the vendors distinct |
| NetVendorOuiSpec.FreshKeyAmong | NetVendor.py:330-333 | a key absent from the cache is absent from any part of it |
| NetVendorOuiSpec.UniqueStep | NetVendor.py:331-333 | one step of the dedup loop keeps keys and vendors distinct and only takes entries of the cache |
| NetVendorOuiSpec.UniqueByValueSpec | NetVendor.py:329-333 | the written cache has distinct keys and vendors, only entries of the cache, and every vendor of the cache |
| NetVendorOuiSpec.StandardizeAll | NetVendor.py:481-484 | each vendor is standardised and each key kept, in order |
| NetVendorOuiSpec.NormalizeKeysSpec | NetVendor.py:474-478 | the normalised cache is no larger, has distinct keys, and every key is a valid six-character normalised OUI |
| NetVendorOuiSpec.NormalizeKeysStable | NetVendor.py:474-478 | a cache already normalised is unchanged |
| NetVendorOuiSpec.CleanKeysSettle | NetVendor.py:455-512 | cleaning a cleaned cache again keeps its keys |
| NetVendorOuiSpec.Sampled | NetVendor.py:256-267 | a file no larger than 1 MiB is hashed as its content twice |
| NetVendorOuiSpec.RecordedUnchanged | NetVendor.py:275-290 | a file just recorded has not changed, and an unrecorded one has |
| NetVendorOuiSpec.MiddleEditUnseen | NetVendor.py:256-267 | two files of the same length over 2 MiB that agree in their first and last MiB hash the same |
| NetVendorOuiSpec.MiddleEditUnnoticed | NetVendor.py:252-285 | an edit in the middle of such a file, keeping its size and time, is not noticed |
| NetVendorOuiSpec.NormalizeAll | NetVendor.py:312-315 | loading normalises each key and keeps each vendor, in order |
| NetVendorOuiSpec.LoadedCacheKeys | NetVendor.py:306-319 | the loaded cache has distinct, normalised keys |
| NetVendorOutput.PathsOfTxt | netvendor/utils/vendor_output_handler.py:35-63 | for <dir>/<base>.txt the files are output/<base>-Devices.csv and output/<base>-Ports.csv |
| NetVendorOutput.PathsCollide | netvendor/utils/vendor_output_handler.py:35-63 | when the base name holds no ".txt", both writers use the same file |
| NetVendorOutput.FixedPathsOfTxt | netvendor/utils/vendor_output_handler.py:35-63 | for a .txt input the stem-based names agree with the replace-based ones |
| NetVendorOutput.MakeCsv | netvendor/utils/vendor_output_handler.py:25-50 | the header, then one row per device in order: MAC, raw lookup ("" for None), VLAN or "", port or "" |
| NetVendorOutput.PortRecs | netvendor/utils/vendor_output_handler.py:66-80 | one record per device in order, with port and VLAN defaulting to "" and the raw lookup |
| NetVendorOutput.Names | netvendor/utils/vendor_output_handler.py:93 | vendor names of lookups that found one |
| NetVendorOutput.FirstRaising | netvendor/utils/vendor_output_handler.py:87-96 | the first port whose vendors include None, or the number of ports if none does |
| NetVendorOutput.WritePortRows | netvendor/utils/vendor_output_handler.py:85-96 | the header and the rows of every port before the first one whose vendors include None; sorting that port's vendors raises TypeError exactly when there is one |
| NetVendorOutput.GeneratePortReport | netvendor/utils/vendor_output_handler.py:52-96 | the port CSV path, and the rows of the ports grouped in first-seen order up to the one that raises |
| NetVendorOutput.RaisingPortHasUnknown | netvendor/utils/vendor_output_handler.py:79-93 | a port raises only if some device's lookup returned None |
| NetVendorOutput.UnknownMakesPortRaise | netvendor/utils/vendor_output_handler.py:79-93 | a device whose lookup returned None makes some port raise |
| NetVendorOutput.RaisesIffUnknown | netvendor/utils/vendor_output_handler.py:52-96 | the report raises exactly when some lookup returned None |
| NetVendorOutput.PortCounts | netvendor/utils/vendor_output_handler.py:66-80 | each port's total is its number of devices, and the totals add up to the devices |
| NetVendorOutput.SeenOf | netvendor/utils/vendor_output_handler.py:114-116 | one observation per device: its VLAN or "N/A", and the raw lookup |
| NetVendorOutput.DistributionCounts | netvendor/utils/vendor_output_handler.py:114-125 | vendor counts and VLAN totals each add up to the devices, and each VLAN's unique-vendor count is its number of distinct vendors |
| NetVendorOutput.Lookups | netvendor/utils/vendor_output_handler.py:518 | one lookup per device, in order |
| NetVendorOutput.SaveVendorSummary | netvendor/utils/vendor_output_handler.py:505-532 | the lines written are those of the summary specification |
| NetVendorOutput.SummarySpec | netvendor/utils/vendor_output_handler.py:505-532 | six heading lines with "Total Devices: len(devices)", then one line per distinct lookup result (None included), most devices first, each with its count and percentage of len(devices), counts adding up to the devices |
| NetVendorOutput.SummaryLines | netvendor/utils/vendor_output_handler.py:525-532 | line 3 states the total and line 6 + i is the i-th vendor's line |
| NetVendorOutput.HeadBody | netvendor/utils/vendor_output_handler.py:525-532 | the heading's six lines come before the vendor lines |
| NetVendorScriptMac.TableAgreesOffHeaders | NetVendor.py:102-120 | off header lines the script's table test agrees with the packaged one, and everything it accepts the packaged one accepts |
| NetVendorScriptMac.HeaderLineRejected | NetVendor.py:102-120 | a header line starting "Vlan" is no table line to the script |
| NetVendorScriptMac.ParsePortInfo | NetVendor.py:122-146 | a port is returned exactly for a non-ARP line of four or more words whose last word starts Gi/Fa/Te/Eth, and then agrees with the packaged parser |
| NetVendorScriptMac.GetFormatType | NetVendor.py:537-549 | one of three kinds, not "generic" exactly when the lower-cased line contains "mac address" |
| NetVendorScriptMac.FormatTypeIgnoresCase | NetVendor.py:544 | the kind does not depend on the line's case |
| NetVendorScriptMac.TableFormatsAgree | NetVendor.py:537-549 | a line with "Mac Address" or "MAC Address" is classed as a table |
| OuiCacheUpdate.ManufEntry | shadowvendor/utils/update_oui_cache.py:53-66 | empty and comment lines give nothing; an entry's OUI and vendor are stripped |
| OuiCacheUpdate.Assign | shadowvendor/utils/update_oui_cache.py:51-68 | the dict built has distinct keys |
| OuiCacheUpdate.ParseManufData | shadowvendor/utils/update_oui_cache.py:41-68 | the loop builds the dict of the specification |
| OuiCacheUpdate.AssignStep | shadowvendor/utils/update_oui_cache.py:53-66 | each line is skipped when empty, a comment or without a tab, and otherwise stores its stripped vendor under its stripped OUI |
| OuiCacheUpdate.AssignSkip | shadowvendor/utils/update_oui_cache.py:55-61 | a skipped line changes nothing |
| OuiCacheUpdate.AssignPut | shadowvendor/utils/update_oui_cache.py:66 | an accepted line stores its entry |
| OuiCacheUpdate.StripIdempotent | shadowvendor/utils/update_oui_cache.py:59-63 | stripping twice is stripping once |
| OuiCacheUpdate.SplitTwoIffSeparator | shadowvendor/utils/update_oui_cache.py:59-61 | splitting gives two or more parts exactly when the separator occurs |
| OuiCacheUpdate.ManufEntrySkipped | shadowvendor/utils/update_oui_cache.py:55-61 | a line is skipped exactly when it is empty, a comment, or has no tab once stripped |
| OuiCacheUpdate.ManufEntryFields | shadowvendor/utils/update_oui_cache.py:59-63 | the first two tab-separated fields, stripped, are the entry; later fields are ignored |
| OuiCacheUpdate.TabFields | shadowvendor/utils/update_oui_cache.py:59 | splitting on tabs gives the two fields first |
| OuiCacheUpdate.ManufKeyVerbatim | shadowvendor/utils/update_oui_cache.py:63-66 | the OUI is stored exactly as the line spells it |
| OuiCacheUpdate.ManufLastWins | shadowvendor/utils/update_oui_cache.py:66 | the last line for an OUI decides its vendor |
| OuiCacheUpdate.ManufKeyFromLine | shadowvendor/utils/update_oui_cache.py:66 | every key comes from an accepted line |
| OuiCacheUpdate.ManufValueFromLine | shadowvendor/utils/update_oui_cache.py:66 | every stored pair comes from an accepted line |
| OuiCacheUpdate.AssignLastWins | shadowvendor/utils/update_oui_cache.py:66 | for any line parser, the last line for a key decides its value |
| OuiCacheUpdate.AssignKeyFrom | shadowvendor/utils/update_oui_cache.py:66 | for any line parser, every key comes from a line |
| OuiCacheUpdate.AssignValueFrom | shadowvendor/utils/update_oui_cache.py:66 | for any line parser, every stored pair comes from a line |
| OuiDatabase.ConfiguredKeysDistinct | oui_manager.py:68-74 | the five configured vendors are distinct |
| OuiDatabase.EmptyLists | oui_manager.py:87-90 | one empty list per configured vendor |
| OuiDatabase.LoadDatabaseMissing | oui_manager.py:76-90 | without a file the database is never updated and lists every configured vendor with no OUIs |
| OuiDatabase.Before | oui_manager.py:156 | the text before the first "(hex)" is a prefix of the line |
| OuiDatabase.Dotted | oui_manager.py:157 | a dot is put after the fourth character and nothing else changes |
| OuiDatabase.BeforeFirst | oui_manager.py:156 | the text before a marker that does not occur earlier is that earlier text |
| OuiDatabase.TrimEndSpaces | oui_manager.py:156 | trailing white space is dropped |
| OuiDatabase.RemoveDashes | oui_manager.py:156 | removing the dashes from xx-xx-xx gives the six hex digits |
| OuiDatabase.RegistryLineOui | oui_manager.py:154-157 | a registry line "xx-xx-xx   (hex)   Name" gives "xxxx.xx" in lower case |
| OuiDatabase.RegistryLineDigits | oui_manager.py:156 | its OUI digits are the six hex digits in lower case |
| OuiDatabase.RegistryBefore | oui_manager.py:156 | the text before "(hex)" is the dashed OUI and its padding |
| OuiDatabase.RegistryStrip | oui_manager.py:156 | stripping leaves the dashed OUI |
| OuiDatabase.FoundOuisSpec | oui_manager.py:151-158 | the OUIs found are distinct and are exactly those of lines naming one of the vendor's search names with "(hex)" |
| OuiDatabase.DistinctCard | oui_manager.py:162-169 | a list without repeats has as many elements as its set |
| OuiDatabase.PermutationDistinct | oui_manager.py:162-163 | a reordering of a list without repeats has none |
| OuiDatabase.MergeSpec | oui_manager.py:161-172 | the merged list is sorted, has no repeats, holds exactly the old and new OUIs, and total is existing plus new |
| OuiDatabase.MergeSortedDistinct | oui_manager.py:162-163 | the merged list is sorted and has no repeats |
| OuiDatabase.MergeMembers | oui_manager.py:162-163 | it holds exactly the old and found OUIs |
| OuiDatabase.MergeTotal | oui_manager.py:166-170 | total equals existing plus new |
| OuiDatabase.SortedUnique | oui_manager.py:163 | two sorted lists without repeats and with the same elements are equal |
| OuiDatabase.MergeIdempotent | oui_manager.py:161-172 | merging the same findings again changes nothing and finds nothing new |
| OuiDatabase.UpdateSpec | oui_manager.py:103-215 | the update succeeds exactly when the download succeeds and the file is not corrupt, and then saves; the timestamp is now; each vendor's list and statistics are its merge |
| OuiDatabase.UpdateKeepsOthers | oui_manager.py:146-172 | vendors that are not configured keep their stored lists |
| OuiDatabase.NoFileNoOuis | oui_manager.py:257-265 | without a file every vendor has no OUIs |
| OuiDatabase.MergeElems | oui_manager.py:162-163 | the merged list's elements are the union |
| OuiDatabase.MergedOuiSet | oui_manager.py:257-265 | a vendor whose list is a merge returns the union as its set |
| OuiDatabase.UpdateThenGet | oui_manager.py:103-265 | after an update, a vendor's set is its old OUIs together with those found |
| OuiDatabase.CheckUpdateAnswer | oui_manager.py:217-255 | a corrupt file raises JSONDecodeError; otherwise the answer is yes exactly for "y" or "Y" |
| OuiDatabase.ScanLines | oui_manager.py:146-158 | the scan loop finds the OUIs of the specification |
| OuiDatabase.MergeStep | oui_manager.py:146-172 | each vendor's step stores its merge and its statistics |
| OuiDatabase.MergeStepStats | oui_manager.py:165-170 | each vendor's step stores its statistics |
| OuiDatabase.MergeVendors | oui_manager.py:146-172 | the loop over the vendors gives the database and statistics of the specification |
| OuiDatabase.OuiManager.constructor | oui_manager.py:49-74 | the configured vendors, over the file as found |
| OuiDatabase.OuiManager.LoadDatabase | oui_manager.py:76-90 | the result of loading the file |
| OuiDatabase.OuiManager.SaveDatabase | oui_manager.py:92-101 | the file holds the data |
| OuiDatabase.OuiManager.UpdateDatabase | oui_manager.py:103-215 | the success flag, statistics and file are those of the update specification |
| OuiDatabase.OuiManager.CheckUpdateNeeded | oui_manager.py:217-255 | the answer of the specification |
| OuiDatabase.OuiManager.GetVendorOuis | oui_manager.py:257-265 | the set of the specification |
| ShadowCore.MaskParts | shadowvendor/core/netvendor.py:40 | splitting on '/' and white space gives at least one part |
| ShadowCore.HexSepAvoidsCuts | shadowvendor/core/netvendor.py:40 | hex digits and separators contain no '/' and no white space |
| ShadowCore.AgreesWithoutMask | shadowvendor/core/netvendor.py:22-71 | without a mask the ShadowVendor check and the NetVendor check agree |
| ShadowCore.MaskPartsOf | shadowvendor/core/netvendor.py:40-41 | "mac/mask" splits into the MAC and the mask |
| ShadowCore.ColonFormAvoidsCuts | shadowvendor/core/netvendor.py:40 | a colon MAC contains no '/' and no white space |
| ShadowCore.ColonFormClean | shadowvendor/core/netvendor.py:41-52 | a colon MAC cleans to its twelve digits in lower case, which parse as hex |
| ShadowCore.DecimalMaskOk | shadowvendor/core/netvendor.py:57-59 | a decimal mask is accepted exactly when it is at most 48 |
| ShadowCore.MaskDecides | shadowvendor/core/netvendor.py:22-71 | for a valid colon MAC, the mask alone decides acceptance |
| ShadowCore.PrefixMask | shadowvendor/core/netvendor.py:57-59 | "MAC/n" is accepted exactly when n <= 48 |
| ShadowCore.DigitsAvoidCuts | shadowvendor/core/netvendor.py:40 | digits contain no cut character |
| ShadowCore.NatToStringShort | shadowvendor/core/netvendor.py:57-59 | numbers below 10^k have at most k digits |
| ShadowCore.HexMask | shadowvendor/core/netvendor.py:60-67 | a MAC with a twelve-digit hex mask is accepted |
| ShadowCore.LowerColonForm | shadowvendor/core/netvendor.py:61 | a colon mask cleans to its twelve digits |
| ShadowCore.DottedParts | shadowvendor/core/netvendor.py:82 | a.b.c.d splits into its four parts |
| ShadowCore.DotCons | shadowvendor/core/netvendor.py:82 | splitting on '.' takes the first part off the front |
| ShadowCore.JoinedHexParses | shadowvendor/core/netvendor.py:87-89 | the first twelve characters of four hex groups parse as hex |
| ShadowCore.FourGroupsAccepted | shadowvendor/core/netvendor.py:73-92 | any four dot-separated hex groups are an ARP-table MAC |
| ShadowCore.CiscoDotsRejected | shadowvendor/core/netvendor.py:82-84 | the three-group Cisco spelling is not |
| ShadowCore.FormatMacAddress | shadowvendor/core/netvendor.py:94-119 | a result exists exactly for a non-empty MAC with twelve cleaned characters, and is those twelve in colon pairs |
| ShadowCore.DottedKeepsCase | shadowvendor/core/netvendor.py:108-110 | a dotted MAC is paired without lower-casing |
| ShadowCore.FormatOfClean | shadowvendor/core/netvendor.py:116-118 | twelve cleaned characters are paired with colons |
| ShadowCore.DotFormClean | shadowvendor/core/netvendor.py:104-110 | a Cisco dotted MAC cleans to its twelve characters |
| ShadowCore.DotFormTakesDottedBranch | shadowvendor/core/netvendor.py:108 | a dotted MAC takes the dotted branch |
| ShadowCore.DotFormDottedClean | shadowvendor/core/netvendor.py:109-110 | joining its dot groups gives the twelve characters |
| ShadowCore.DotFormWhole | shadowvendor/core/netvendor.py:104-105 | a dotted MAC is one part and contains a dot |
| ShadowCore.DotFormPieces | shadowvendor/core/netvendor.py:109-110 | its pieces join to the twelve characters |
| ShadowCore.DotPiecesJoin | shadowvendor/core/netvendor.py:110 | three four-character groups join back |
| ShadowCore.DotFormSplit | shadowvendor/core/netvendor.py:109 | the Cisco spelling splits into three groups of four |
| ShadowCore.ColonInputLowered | shadowvendor/core/netvendor.py:111-118 | a colon MAC is formatted in lower case |
| ShadowCore.ColonFormWhole | shadowvendor/core/netvendor.py:104-105 | a colon MAC is one part and contains no dot |
| ShadowCore.ColonFormTakesPlainBranch | shadowvendor/core/netvendor.py:111-113 | a colon MAC takes the plain branch |
| ShadowCore.ColonFormPlainClean | shadowvendor/core/netvendor.py:113 | it cleans to its digits in lower case |
| ShadowCore.LowerHexColonsNoDot | shadowvendor/core/netvendor.py:108 | hex and colons contain no dot |
| ShadowCore.PlainCleanWithoutDot | shadowvendor/core/netvendor.py:113 | without a dot the plain branch removes the separators |
| ShadowCore.RemoveSubset | shadowvendor/core/netvendor.py:113 | without a dot, removing ':' and '-' removes every separator |
| ShadowCore.ProcessArpLine | shadowvendor/core/netvendor.py:227-243 | a VLAN is given exactly for an ARP data line, and a MAC only with it |
| ShadowCore.ArpRowFields | shadowvendor/core/netvendor.py:233 | an ARP row splits into its six fields |
| ShadowCore.VlanInterface | shadowvendor/core/netvendor.py:240 | the interface "Vlan<n>" gives VLAN n |
| ShadowCore.ArpRowProcessed | shadowvendor/core/netvendor.py:121-243 | an ARP row with an ARP-table MAC on Vlan<n> is an ARP line and gives the formatted MAC and VLAN n |
| ShadowCore.VlanInterfaceWord | shadowvendor/core/netvendor.py:236 | the interface word is already stripped |
| ShadowCore.ArpRowParts | shadowvendor/core/netvendor.py:233-236 | the fields read are "Internet", the MAC and the interface |
| ShadowCore.ArpLineRead | shadowvendor/core/netvendor.py:121-243 | any line whose fields are "Internet", an ARP-table MAC and an interface is an ARP line and gives that MAC formatted and the interface's VLAN |
| ShadowCore.SomePatternInSpec | shadowvendor/core/netvendor.py:166-167 | a header matches exactly when every word of some pattern occurs, ignoring case |
| ShadowCore.FirstVlan | shadowvendor/core/netvendor.py:175-184 | the VLAN found among the first two words is in 1..4094 |
| ShadowCore.IsMacAddressTable | shadowvendor/core/netvendor.py:143-194 | a header line is a table line; the test raises only for a row whose VLAN is not spelled as str(vlan) anywhere in the line |
| ShadowCore.VlanRowTest | shadowvendor/core/netvendor.py:169-194 | the row test raises only in that case |
| ShadowCore.VlanIndex | shadowvendor/core/netvendor.py:175-182 | the word that gave the VLAN is one of the first two and parses to it |
| ShadowCore.FixedAgrees | shadowvendor/core/netvendor.py:143-194 | wherever the VLAN word is spelled as str(vlan), the written test and the corrected one agree |
| ShadowCore.VlanRowAgrees | shadowvendor/core/netvendor.py:169-194 | the same on the words of a row |
| ShadowCore.FirstWordUnspelled | shadowvendor/core/netvendor.py:175-182 | when the VLAN comes from the second word, the first is not its spelling |
| ShadowCore.IndexOfEarly | shadowvendor/core/netvendor.py:189 | list.index finds the first occurrence |
| ShadowCore.ZeroPaddedUnspelled | shadowvendor/core/netvendor.py:178 | "0<vlan>" parses to the VLAN but is not str(vlan) |
| ShadowCore.UnspelledVlanRaises | shadowvendor/core/netvendor.py:189 | a row whose VLAN word is spelled otherwise, with str(vlan) nowhere in the line, raises ValueError |
| ShadowCore.UnspelledRowRaises | shadowvendor/core/netvendor.py:189 | the same on the words of a row |
| ShadowCore.RaisesWhenAbsent | shadowvendor/core/netvendor.py:189 | a row without str(vlan) among its words raises ValueError |
| ShadowCore.VlanRowRaises | shadowvendor/core/netvendor.py:189 | the same on the words of a row |
| ShadowCore.ZeroPaddedVlan | shadowvendor/core/netvendor.py:178 | int("0<vlan>") is the VLAN |
| ShadowCore.IndexOfAbsent | shadowvendor/core/netvendor.py:189 | a word that does not occur is not found |
| ShadowCore.FixedAcceptsLeadingZero | shadowvendor/core/netvendor.py:143-194 | the corrected test accepts "0<vlan> <MAC> ..." |
| ShadowCore.VlanThenMac | shadowvendor/core/netvendor.py:189-194 | a VLAN word followed by a MAC passes the corrected test |
| ShadowCore.ZeroRowWords | shadowvendor/core/netvendor.py:171 | the words of that line are the padded VLAN, the MAC and the rest |
| ShadowCore.ZeroPaddedNoSpace | shadowvendor/core/netvendor.py:171 | the padded VLAN has no white space |
| ShadowCore.FindPort | shadowvendor/core/netvendor.py:211-223 | the first port-like word, or none when no word is port-like |
| ShadowCore.ParsePortInfo | shadowvendor/core/netvendor.py:196-225 | a port is found exactly when the line has three or more words and a port-like word (not a status word; a port pattern or all digits) after the first two, and is such a word |
| ShadowVendorApi.HeaderLines | shadowvendor/api.py:163-167 | at most two header lines are skipped |
| ShadowVendorApi.Body | shadowvendor/api.py:163-170 | the lines after the skipped ones, in order |
| ShadowVendorApi.KindSpec | shadowvendor/api.py:134-157 | a MAC list exactly when the first line is a MAC; an ARP table exactly when it is not and the first line starts "Protocol", either line holds "Internet", or the second is an ARP line; a MAC table otherwise; the type names follow |
| ShadowVendorApi.RowsFormatted | shadowvendor/api.py:170-209 | every device key read is a 17-character colon-paired MAC |
| ShadowVendorApi.TableRowFields | shadowvendor/api.py:196-207 | a MAC-table row "vlan mac type port" gives the formatted MAC, str(int(vlan)) and the port |
| ShadowVendorApi.TableSplit | shadowvendor/api.py:197 | splitting such a row gives its four fields |
| ShadowVendorApi.TableRowOf | shadowvendor/api.py:196-207 | any row whose first field is an integer and second a MAC gives the device |
| ShadowVendorApi.ZeroPaddedVlanNormalised | shadowvendor/api.py:200 | a zero-padded VLAN is stored without its padding |
| ShadowVendorApi.Enrich | shadowvendor/api.py:215-220 | each device, in order, gets its lookup as vendor, "Unknown" for None |
| ShadowVendorApi.VendorsOf | shadowvendor/api.py:215-220 | there are no more vendors than devices, and at least one when there is a device |
| ShadowVendorApi.VendorsOfMembers | shadowvendor/api.py:220 | a vendor is counted exactly when some device has it |
| ShadowVendorApi.EnrichGet | shadowvendor/api.py:215-220 | enriching keeps the keys and each device's VLAN and port |
| ShadowVendorApi.EnrichDevices | shadowvendor/api.py:215-220 | the loop gives the enriched devices and the set of their vendors |
| ShadowVendorApi.OutputsSpec | shadowvendor/api.py:223-284 | the device CSV, dashboard and summary are always listed; the port CSV exactly for a MAC table; both SIEM files exactly with SIEM export; the drift CSV exactly with drift analysis and a history directory; no file twice |
| ShadowVendorApi.OutputListSpec | shadowvendor/api.py:223-284 | the same in terms of the three flags |
| ShadowVendorApi.OutputListMembers | shadowvendor/api.py:223-284 | which files are listed, and how many |
| ShadowVendorApi.OutputListRanked | shadowvendor/api.py:223-284 | the files are listed in a fixed order |
| ShadowVendorApi.RankedDistinct | shadowvendor/api.py:223-284 | a list in that order has no repeats |
| ShadowVendorApi.RankedIncreasing | shadowvendor/api.py:223-284 | the order holds between any two entries |
| ShadowVendorApi.RFind | shadowvendor/api.py:105 | the last occurrence of a character, or -1 |
| ShadowVendorApi.Stem | shadowvendor/api.py:229 | the stem has no '/' |
| ShadowVendorApi.RFindBefore | shadowvendor/api.py:105 | the last occurrence is the one before a tail without it |
| ShadowVendorApi.FileNameAfterSlash | shadowvendor/api.py:105 | the file name is the part after the last '/' |
| ShadowVendorApi.StemOf | shadowvendor/api.py:229 | the stem of dir/base.ext is base |
| ShadowVendorApi.OutputPaths | shadowvendor/api.py:223-284 | one path per listed file, in order |
| ShadowVendorApi.OutputPathNamed | shadowvendor/api.py:229-284 | each listed path ends in the file's name: <stem>-Devices.csv, <stem>-Ports.csv, vendor_distribution.html, vendor_summary.txt, the two SIEM files, vendor_drift.csv |
| ShadowVendorApi.AnalyzeErrors | shadowvendor/api.py:109-212 | FileNotFoundError exactly for a missing file, ValueError "empty" exactly for an empty one, and "no MAC addresses" exactly when no line gives a device |
| ShadowVendorApi.NoMacAddressesSpec | shadowvendor/api.py:170-212 | no devices exactly when no body line is read as a device |
| ShadowVendorApi.EnrichedFacts | shadowvendor/api.py:215-220 | the enriched table has distinct keys, as many entries as devices, at least one and at most that many vendors, and each entry's vendor is its lookup |
| ShadowVendorApi.EnrichedScan | shadowvendor/api.py:170-220 | a MAC is a device exactly when some body line yields it; each is colon-paired and carries its lookup |
| ShadowVendorApi.ScannedKeys | shadowvendor/api.py:170-209 | a key is read exactly when some body line yields it, and is colon-paired |
| ShadowVendorApi.ColonsAt | shadowvendor/api.py:170-209 | a colon-paired MAC has colons at 2 and 14 |
| ShadowVendorApi.AnalyzeDevices | shadowvendor/api.py:58-295 | a successful run reports the input type, as many devices as the table holds (at most the body lines), at least one vendor and no more than devices, exactly the MACs the body yields, each with its lookup and its read VLAN and port |
| ShadowVendorApi.AnalyzeValue | shadowvendor/api.py:289-295 | the result holds the counts, the listed paths, the input type and the enriched devices |
| ShadowVendorApi.AnalyzeOutputs | shadowvendor/api.py:223-284 | the output files are the listed files' paths |
| ShadowVendorApi.VendorCountSpec | shadowvendor/api.py:215-292 | vendor_count is the number of distinct vendors among the devices |
| ShadowVendorApi.ChooseOutputs | shadowvendor/api.py:223-284 | the files listed are those of the specification |
| ShadowVendorApi.ListPaths | shadowvendor/api.py:223-284 | the paths listed are those of the specification |
| ShadowVendorApi.DetectKind | shadowvendor/api.py:134-157 | the type detected is that of the specification |
| ShadowVendorApi.SkipHeaders | shadowvendor/api.py:160-167 | the lines left are the body |
| ShadowVendorApi.AnalyzeFile | shadowvendor/api.py:58-295 | the result, or the error raised, is that of the specification |
| ShadowVendorOutput.DevicesCsvPathOf | shadowvendor/utils/vendor_output_handler.py:36-43 | the device CSV of dir/base.ext is output/base-Devices.csv |
| ShadowVendorOutput.MakeCsv | shadowvendor/utils/vendor_output_handler.py:26-66 | the header, then one row per device in order: MAC, vendor or "Unknown", VLAN or "N/A", port or "N/A" |
| ShadowVendorOutput.PortsCsvPathOfTxt | shadowvendor/utils/vendor_output_handler.py:95 | for base.txt the port CSV is output/base-Ports.csv |
| ShadowVendorOutput.PortsCsvPathNoTxt | shadowvendor/utils/vendor_output_handler.py:95 | a name without ".txt" is used unchanged |
| ShadowVendorOutput.OutputJoin | shadowvendor/utils/vendor_output_handler.py:95 | joining onto "output" puts a slash between |
| ShadowVendorOutput.UnderOutputDir | shadowvendor/api.py:225-241 | writing under output inside the output directory is the path the API lists |
| ShadowVendorOutput.ListedPaths | shadowvendor/api.py:229-236 | the device CSV listed is the one written; the port CSV listed is the stem-based name |
| ShadowVendorOutput.FixedPortsPathDistinct | shadowvendor/api.py:236 | the stem-based port CSV never coincides with the device CSV |
| ShadowVendorOutput.PortsPathUnlisted | shadowvendor/utils/vendor_output_handler.py:95 | for an input not named .txt the port report goes to output/<name> while the API lists output/<stem>-Ports.csv |
| ShadowVendorOutput.PortsPathAsWritten | shadowvendor/utils/vendor_output_handler.py:95 | for such an input the report keeps the input's own name |
| ShadowVendorOutput.PortsPathIntended | shadowvendor/api.py:236 | the stem-based name is output/<base>-Ports.csv |
| ShadowVendorOutput.PortsCsvPathUnrenamed | shadowvendor/utils/vendor_output_handler.py:95 | a base name without ".txt" is kept |
| ShadowVendorOutput.DotNotDash | shadowvendor/utils/vendor_output_handler.py:95 | base.ext and base-Ports.csv differ |
| ShadowVendorOutput.PortRecs | shadowvendor/utils/vendor_output_handler.py:99-113 | one record per device in order, with port and VLAN defaulting to "" and the vendor or "Unknown" |
| ShadowVendorOutput.PortRows | shadowvendor/utils/vendor_output_handler.py:123-131 | one row per port group, in order |
| ShadowVendorOutput.GeneratePortReport | shadowvendor/utils/vendor_output_handler.py:69-131 | the path is the renamed input, and the rows are the header then one row per port in first-seen order |
| ShadowVendorOutput.WritePortRows | shadowvendor/utils/vendor_output_handler.py:120-131 | the header and the rows of the groups |
| ShadowVendorOutput.PortReportRows | shadowvendor/utils/vendor_output_handler.py:69-131 | one row per distinct port in first-seen order: the port, its device count, its sorted distinct VLANs and vendors joined by commas, and its MACs in order; the counts add up to the devices |
| ShadowVendorOutput.SeenOf | shadowvendor/utils/vendor_output_handler.py:192-196 | one observation per device: its VLAN or "N/A", and its vendor or "Unknown" |
| ShadowVendorOutput.DistributionCounts | shadowvendor/utils/vendor_output_handler.py:192-203 | vendor counts and VLAN totals each add up to the devices; each VLAN's total is its number of devices; each VLAN's unique count is its number of distinct vendors |
| ShadowVendorOutput.VendorList | shadowvendor/utils/vendor_output_handler.py:501-505 | one vendor per device, "Unknown" for None |
| ShadowVendorOutput.RowLines | shadowvendor/utils/vendor_output_handler.py:526-529 | one formatted line per vendor row |
| ShadowVendorOutput.RowLinesSnoc | shadowvendor/utils/vendor_output_handler.py:526-529 | each row adds its line |
| ShadowVendorOutput.CounterItems | shadowvendor/utils/vendor_output_handler.py:500-505 | the counter's items are the vendors in first-seen order with their counts |
| ShadowVendorOutput.CountVendors | shadowvendor/utils/vendor_output_handler.py:500-505 | the loop counts every vendor and keeps their first-seen order |
| ShadowVendorOutput.WriteSummary | shadowvendor/utils/vendor_output_handler.py:514-531 | nine heading lines, one line per row, and the closing rule |
| ShadowVendorOutput.SaveVendorSummary | shadowvendor/utils/vendor_output_handler.py:475-541 | the lines written are those of the summary specification |
| ShadowVendorOutput.SummarySpec | shadowvendor/utils/vendor_output_handler.py:475-541 | nine heading lines with the device total, one line per distinct vendor most devices first with its count and percentage of the total, each vendor counted as often as it occurs, and the closing rule |
| ShadowVendorOutput.SummaryLayout | shadowvendor/utils/vendor_output_handler.py:514-531 | the summary's layout for any total that the counts add up to |
| ShadowVendorOutput.HeadBodyRule | shadowvendor/utils/vendor_output_handler.py:514-531 | heading, body and rule in that order |
| ShadowVendorScriptMac.FormatMacAddress | ShadowVendor.py:115-131 | a result exists exactly when the text is non-empty and at least twelve characters remain after stripping, lower-casing and removing ':', '.' and '-'; the result is seventeen lower-case characters whose separator-free form is the first twelve cleaned characters |
| ShadowVendorScriptMac.FormattedCleaned | ShadowVendor.py:128-130 | joining twelve cleaned characters in pairs with ':' gives seventeen lower-case characters from which removing the separators returns the twelve |
| ShadowVendorScriptMac.CleanedLowered | ShadowVendor.py:124 | the cleaned text is lower-case and holds no ':', '.' or '-' |
| ShadowVendorScriptMac.CleanedUnstripped | ShadowVendor.py:124 | on text without surrounding white space the script's cleaning agrees with the package's cleaning |
| ShadowVendorScriptMac.CleanedHex | ShadowVendor.py:124 | on text of hex digits and separators, cleaning is lower-casing after separator removal, and leaves only lower-case hex digits |
| ShadowVendorScriptMac.LongerAccepted | ShadowVendor.py:61-69 | a colon-form MAC followed by any further hex digits and separators is still accepted, since only the first twelve cleaned characters are checked |
| ShadowVendorScriptMac.AcceptedFormats | ShadowVendor.py:42-69 | every text is_mac_address accepts is formatted by format_mac_address |
| ShadowVendorScriptMac.FormatIdempotent | ShadowVendor.py:115-131 | formatting a formatted MAC returns it unchanged |
| ShadowVendorScriptMac.CleanedColonForm | ShadowVendor.py:124 | cleaning the colon form of twelve lower-case hex digits returns the twelve digits |
| ShadowVendorScriptMain.ExactlyOneKind | ShadowVendor.py:302-308 | exactly one of is_mac_list, is_arp_table and is_mac_table holds, is_mac_list exactly when the stripped first line is a MAC, and the kind reported is the flag that holds |
| ShadowVendorScriptMain.LetterLedNotMac | ShadowVendor.py:61-69 | a stripped line starting with 'P' or 'p' is never a MAC, so a "Protocol" header cannot make a file a MAC list |
| ShadowVendorScriptMain.ProtocolHeaderIsArp | ShadowVendor.py:302-306 | a file whose first line starts with "Protocol" is read as an ARP table |
| ShadowVendorScriptMain.MacFirstLineIsList | ShadowVendor.py:302 | a file whose first line is a colon-form MAC is read as a MAC list |
| ShadowVendorScriptMain.RowsFormatted | ShadowVendor.py:327-382 | every device key any of the three line readers produces is seventeen lower-case characters |
| ShadowVendorScriptMain.ArpRowVlan | ShadowVendor.py:344-364 | the ARP row "Internet ip age mac type Vlan<n>" gives the formatted MAC with VLAN str(n) and port N/A |
| ShadowVendorScriptMain.ReadInputSpec | ShadowVendor.py:258-265 | the run exits as empty exactly when the file has no lines, exits with no MAC addresses exactly when no line yields a device (414-427), and otherwise reports the detected kind with a table holding each formatted MAC once and 1 <= devices <= mac_count <= line_count, ports_found <= mac_count |
| ShadowVendorScriptMain.ReadFile | ShadowVendor.py:290-427 | the detection pass, the line loop and the empty-table check compute exactly the outcome ReadInput specifies |
| SiemExport.Cells | netvendor/utils/siem_export.py:96-107 | a CSV record has one cell per field name of the fixed ten-field schema |
| SiemExport.Event | netvendor/utils/siem_export.py:117-128 | a JSON event has exactly one key per field name of the schema |
| SiemExport.CsvRows | netvendor/utils/siem_export.py:90-108 | one CSV row per device, each as wide as the schema |
| SiemExport.JsonEvents | netvendor/utils/siem_export.py:112-129 | one JSON line per device |
| SiemExport.ExportSiemEvents | netvendor/utils/siem_export.py:27-130 | the CSV output is the header row followed by one row per device, and the JSONL output is one event per device, each pass asking the vendor lookup afresh |
| SiemExport.WriteCsvRows | netvendor/utils/siem_export.py:86-108 | the CSV loop writes exactly the rows CsvRows specifies, in device order |
| SiemExport.WriteJsonLines | netvendor/utils/siem_export.py:111-129 | the JSONL loop writes exactly the events JsonEvents specifies, in device order |
| SiemExport.CsvRowAt | netvendor/utils/siem_export.py:90-108 | row i is the record built from device i, the run settings and the vendor looked up for device i's MAC |
| SiemExport.JsonEventAt | netvendor/utils/siem_export.py:112-129 | event i is the record built from device i, the run settings and the vendor looked up for device i's MAC |
| SiemExport.CsvRowAligned | netvendor/utils/siem_export.py:96-107 | row i carries device i's MAC in the mac column, the run timestamp in the first column and the input file's base name in the source_file column |
| SiemExport.JsonLineAligned | netvendor/utils/siem_export.py:117-128 | event i maps mac to device i's MAC, timestamp to the run timestamp and source_file to the input file's base name |
| SiemExport.EventMac | netvendor/utils/siem_export.py:121 | an event's mac key holds the record's MAC |
| SiemExport.EventTimestamp | netvendor/utils/siem_export.py:118 | an event's timestamp key holds the record's timestamp |
| SiemExport.EventSourceFile | netvendor/utils/siem_export.py:127 | an event's source_file key holds the record's source file |
| SiemExport.EventGet | netvendor/utils/siem_export.py:72-83 | for every field of the schema, the event's value is the CSV cell in the same position |
| SiemExport.EventKeys | netvendor/utils/siem_export.py:117-128 | an event's keys are the schema's field names in schema order |
| SiemExport.SameVendorSameRecord | netvendor/utils/siem_export.py:90-129 | when both lookups give device i the same vendor, the JSON event and the CSV row agree field by field |
| SiemExport.RecordFallbacks | netvendor/utils/siem_export.py:96-107 | a missing or empty vendor becomes "Unknown", a missing site or environment "", a missing or empty input type "unknown", a missing VLAN or port "N/A"; a present non-empty value is kept |
| SiemExport.DeviceNameChoice | netvendor/utils/siem_export.py:93 | a non-empty device_name is kept, otherwise the name is derived from the MAC |
| SiemExport.DerivedNameChars | netvendor/utils/siem_export.py:93 | the derived name is "device-" followed by the MAC with every ':' turned into '-', character by character |
| SiemExport.ReplaceColons | netvendor/utils/siem_export.py:93 | replacing ':' by '-' keeps the length and changes exactly the colons |
| Sorting.LexLeTotal | netvendor/utils/drift_analysis.py:168 | any two strings are ordered one way or the other by Python's string comparison |
| Sorting.LexLeTrans | netvendor/utils/drift_analysis.py:168 | Python's string order is transitive |
| Sorting.LexLeAntisym | netvendor/utils/drift_analysis.py:168 | two strings each at most the other are equal |
| Sorting.SortBySpec | shadowvendor/utils/vendor_output_handler.py:284 | sorting by a string key gives a key-ordered permutation of the input |
| Sorting.SortSpec | netvendor/utils/drift_analysis.py:168 | sorted() on strings gives an ordered permutation of its input |
| Sorting.Dedup | netvendor/utils/drift_analysis.py:160-168 | de-duplication keeps every element exactly once and adds none |
| Sorting.DedupAppend | netvendor/utils/drift_analysis.py:160-168 | adding an element already present leaves the de-duplicated list unchanged, a new one is appended at the end |
| Sorting.SortByCountDescSpec | netvendor/utils/vendor_output_handler.py:530 | sorted(items, key=count, reverse=True) gives a permutation of the items in non-increasing count order |
| Tally.CountSnoc | shadowvendor/utils/vendor_output_handler.py:500-505 | counting one more element is one more c[x] += 1 |
| Tally.CountSpec | shadowvendor/utils/vendor_output_handler.py:500-505 | a value is a key of the Counter exactly when it occurs in the list, and its count is its number of occurrences |
| Tally.CounterTotal | shadowvendor/utils/vendor_output_handler.py:516 | the counts of a Counter built over a list add up to the list's length |
| VendorCounts.VlansOf | shadowvendor/utils/vendor_output_handler.py:196 | the VLAN seen for each device, in device order |
| VendorCounts.VendorsOf | shadowvendor/utils/vendor_output_handler.py:193-195 | the vendor seen for each device, in device order |
| VendorCounts.CountKeys | shadowvendor/utils/vendor_output_handler.py:203 | a Counter has as many keys as the list has distinct values |
| VendorCounts.DistributeTotals | shadowvendor/utils/vendor_output_handler.py:199-202 | vendor_counts counts the vendors and vlan_total_devices the VLANs over all devices |
| VendorCounts.DistributeVlans | shadowvendor/utils/vendor_output_handler.py:200-203 | a VLAN has a per-VLAN vendor counter and a unique-vendor count exactly when some device is on it; the counter counts that VLAN's vendors and the unique count is their number of distinct values |
| VendorCounts.DistributeVendors | shadowvendor/utils/vendor_output_handler.py:201 | a vendor has a per-vendor VLAN counter exactly when some device has it, counting that vendor's VLANs |
| VendorCounts.DistributeSpec | shadowvendor/utils/vendor_output_handler.py:192-203 | the four counters and the unique-vendor map after the loop, all at once, in terms of the devices seen |
| VendorCounts.VendorsInEmpty | shadowvendor/utils/vendor_output_handler.py:200 | a VLAN no device is on has no vendors |
| VendorCounts.VlansWithEmpty | shadowvendor/utils/vendor_output_handler.py:201 | a vendor no device has is on no VLAN |
| VendorCounts.DistributionConserved | shadowvendor/utils/vendor_output_handler.py:199-202 | the vendor counts and the VLAN totals each add up to the number of devices |
| VendorCounts.DistributeDevices | shadowvendor/utils/vendor_output_handler.py:192-203 | the loop builds exactly the distribution Distribute specifies |
| VendorCounts.Items | netvendor/utils/vendor_output_handler.py:530 | one (vendor, count) item per distinct vendor |
| VendorCounts.SummaryRowsSpec | netvendor/utils/vendor_output_handler.py:530 | the summary rows are in non-increasing count order, each row is a vendor with its number of devices, every vendor has a row, no vendor has two, and the counts add up to the number of devices |
| VendorCounts.SummaryRowsEntries | netvendor/utils/vendor_output_handler.py:530 | each summary row is a vendor that occurs together with its number of occurrences |
| VendorCounts.SummaryRowsCover | netvendor/utils/vendor_output_handler.py:530 | every vendor has a summary row |
| VendorCounts.SummaryRowsDistinct | netvendor/utils/vendor_output_handler.py:530 | no vendor has two summary rows |
| VendorCounts.SummaryRowsTotal | shadowvendor/utils/vendor_output_handler.py:516 | the counts of the summary rows add up to total_devices, the number of devices |
| VendorCounts.RowTotalPerm | shadowvendor/utils/vendor_output_handler.py:516 | reordering rows does not change their total |
| TestData.HostSubnetRange | generator_test.py:81-85 | the host octet is always 1..254, and the subnet octet is at least 1 for indexes from 1 |
| TestData.IndexFromAddress | generator_test.py:83-84 | the index is recovered from the subnet and host as (subnet - 1) * 254 + host |
| TestData.IpFields | generator_test.py:85 | the address splits on '.' into 192, 168 and the decimal subnet and host |
| TestData.IpSplit | generate_test_data.py:53-57 | the address's four dot-separated fields are "192", "168" and the decimal forms of subnet and host |
| TestData.IpInjective | generator_test.py:81-85 | distinct indexes give distinct addresses |
| TestData.HexChar | generator_test.py:79 | the digit is written as an upper-case hex character of that value |
| TestData.Hex2 | generator_test.py:79 | {:02X} writes an octet as two upper-case hex digits whose value is the octet |
| TestData.MacSuffix | generator_test.py:77-79 | the suffix is three {:02X} octets joined by ':', a well-formed hex triple |
| TestData.MacSuffixOctets | generator_test.py:79 | each pair of the suffix reads back as the octet drawn for it |
| TestData.ColonMacAccepted | generator_test.py:176 | a MAC-list entry "oui:suffix" is accepted by both packages' is_mac_address |
| TestData.TwelveAccepted | generator_test.py:176 | the colon form of any twelve hex digits is accepted by both packages' is_mac_address |
| TestData.ColonMacShape | generator_test.py:176 | a MAC-list entry is seventeen characters, the colon form of the twelve digits of its OUI and suffix |
| TestData.DottedMacShape | generator_test.py:134 | oui.replace(':', '.') + '.' + suffix without colons gives the three OUI pairs and the six suffix digits joined by '.' |
| TestData.DottedMacGroups | generator_test.py:134 | the dotted MAC splits into the three OUI pairs and the six suffix digits, and is an ARP-table MAC to the package's is_arp_table_mac |
| TestData.DottedMacWord | generator_test.py:134 | the dotted MAC is one non-empty word |
| TestData.MacTableEntryWords | generator_test.py:134 | a MAC-table entry splits into VLAN, dotted MAC, DYNAMIC and the Gi1/0/ port, and its MAC is an ARP-table MAC |
| TestData.ArpTableEntryWords | generator_test.py:158 | an ARP-table entry splits into Internet, the IP of index i + 1, the age, the dotted MAC, ARPA and Vlan<n> |
| TestData.DataEntryWords | generate_test_data.py:59-64 | a 2500-line entry splits into Internet, the IP, 1, the colon MAC, ARPA and Vlan<10 * draw>, whose VLAN is the decimal 10 * draw |
| TestData.ColonMacWord | generate_test_data.py:64 | the colon MAC is one non-empty word |
| TestData.Scaled | generator_test.py:104-105 | scaling keeps one count per vendor |
| TestData.VendorDistribution | generator_test.py:87-114 | the draw, scaling and Cisco adjustment loop computes exactly Rebalanced |
| TestData.ScaledAt | generator_test.py:105 | each scaled count is the floor of count * target / total |
| TestData.ScaledBounds | generator_test.py:104-105 | the scaled counts add up to at most the target, and to more than the target less one per vendor |
| TestData.ScaledShortfall | generator_test.py:108-110 | after scaling, the shortfall to the target is between 0 and one less than the number of vendors |
| TestData.RebalancedCounts | generator_test.py:100-114 | with a non-zero draw the counts add up to exactly the target, every vendor but Cisco keeps its scaled floor, Cisco gets its floor plus less than eight, and no count is negative |
| TestData.RebalancedError | generator_test.py:101-102 | the distribution raises ZeroDivisionError exactly when every draw is 0 |
| TestData.DataDistribution | generate_test_data.py:73-96 | with draws in the script's ranges the counts are non-negative and add up to exactly 2500 |
| TestData.PercentOf | generator_test.py:90-97 | each bound int(total * p) is a non-negative count |
| TestData.DistributionSucceeds | generator_test.py:87-114 | for at least six entries and draws in the percentage ranges, the distribution succeeds and adds up to the requested count |
| TestData.SmallDistributionRaises | generator_test.py:87-102 | for five entries or fewer all ranges are 0..0, so the draws are all 0 and the distribution raises ZeroDivisionError |
| TestData.OuisOf | generator_test.py:19-56 | each vendor has a non-empty list of well-formed OUI triples |
| TestData.VendorNamesDistinct | generator_test.py:19-56 | the VENDORS dictionary names each vendor once |
| TestData.VendorLookup | generator_test.py:19-56 | VENDORS[vendor] is that vendor's OUI list for every vendor of the distribution |
| TestData.CountOrderDistinct | generator_test.py:89-98 | the distribution names each vendor once |
| TestRows.SumOfCounts | generator_test.py:101-102 | a sum of counts is never negative, and is 0 exactly when every count is 0 |
| TestRows.VendorRows | generator_test.py:129-135 | range(count) gives one row per iteration |
| TestRows.GenerateRows | generator_test.py:128-136 | the nested loop appends exactly the rows Generated specifies and counts exactly the per-vendor totals Tallied specifies |
| TestRows.AppendVendorRows | generator_test.py:129-136 | one vendor's inner loop appends its rows after those already built and adds the vendor with its row count to the counts, when it has rows |
| TestRows.AddRowStep | generator_test.py:135-136 | one iteration appends the next row and raises the vendor's count by one |
| TestRows.CountDone | generator_test.py:136 | after i iterations a fresh vendor is counted i times, or absent when i is 0 |
| TestRows.RowStep | generator_test.py:129-135 | one iteration extends the list by the row at the next position |
| TestRows.GeneratedStep | generator_test.py:128-135 | the outer loop's next vendor appends that vendor's rows |
| TestRows.TalliedStep | generator_test.py:136 | the outer loop's next vendor adds its count when it has rows |
| TestRows.CountStep | generator_test.py:136 | vendor_counts.get(vendor, 0) + 1 after i iterations stores i + 1 |
| TestRows.TalliedFresh | generator_test.py:124-136 | vendors not yet reached have no count |
| TestRows.VendorRowsAt | generator_test.py:129-135 | the i-th row of a vendor is built from its number i and its position in the whole list |
| TestRows.GeneratedLength | generator_test.py:128-135 | the list holds as many rows as the counts add up to |
| TestRows.GeneratedIndex | generator_test.py:128-135 | the i-th row of vendor v sits after all earlier vendors' rows, built from v, i and that position |
| TestRows.GeneratedAt | generator_test.py:128-135 | every row of the list comes from some vendor v and some iteration i of it |
| TestRows.TalliedGet | generator_test.py:136 | a vendor's count is its number of rows, and a vendor without rows has no count |
| TestRows.TalliedSum | generator_test.py:124-139 | the per-vendor counts returned add up to the number of rows generated |
| TestTables.Shuffled | generator_test.py:138 | shuffling keeps the number of rows |
| TestTables.ShuffledPlace | generator_test.py:138 | every row before the shuffle lands in exactly one place after it |
| TestTables.TableRows | generator_test.py:126-138 | a generated table has exactly the requested number of rows |
| TestTables.GenerateTable | generator_test.py:116-139 | the generator computes exactly the specified text and counts, or raises ZeroDivisionError |
| TestTables.GenerateMacAddressTable | generator_test.py:116-139 | the MAC address table is the header followed by the shuffled rows, and succeeds for six entries or more |
| TestTables.GenerateArpTable | generator_test.py:141-163 | the ARP table is the header followed by the shuffled rows, and succeeds for six entries or more |
| TestTables.GenerateMacList | generator_test.py:165-180 | the MAC list is the shuffled rows with no header, and succeeds for six entries or more |
| TestTables.TableCounts | generator_test.py:126-139 | a table has as many rows as requested, its counts add up to that number, and each vendor's count is its rebalanced count |
| TestTables.TableRowOrigin | generator_test.py:128-138 | every row of the table was built by some vendor's iteration, at the position the shuffle moved it from |
| TestTables.DrawOui | generator_test.py:130 | random.choice(VENDORS[vendor]) gives a well-formed OUI |
| TestTables.MacTableRow | generator_test.py:134 | every MAC-table row has four words and its second word is the drawn dotted MAC, an ARP-table MAC |
| TestTables.MacRowColumns | generator_test.py:134 | a MAC-table row's columns are the ones the table reader expects, with the dotted MAC second |
| TestTables.MacListRow | generator_test.py:176 | every MAC-list row is the drawn colon MAC, accepted by both packages' is_mac_address |
| TestTables.ArpRowFixedNumbered | generator_test.py:156 | numbering the IP by the row's place in the whole list gives every row its own address |
| TestTables.FirstRow | generator_test.py:128-135 | the first rows of the first two vendors are at positions 0 and counts[0] |
| TestTables.FirstRowsShareAddress | generator_test.py:156-158 | the first rows of two vendors both carry 192.168.1.1 |
| TestTables.ArpEntryAddress | generator_test.py:156-158 | an ARP row's address word is the IP of its iteration number plus one |
| TestTables.FirstVendorRows | generator_test.py:128-135 | no rows precede the first vendor, and the second vendor's rows start after the first vendor's |
| TestTables.GenerateEntries | generate_test_data.py:99-105 | the loop with the running index builds exactly the rows Generated specifies |
| TestTables.DataStep | generate_test_data.py:101-105 | one iteration appends the entry of the running index and increments it |
| TestTables.WriteEntries | generate_test_data.py:111-113 | the file is every entry followed by a newline |
| TestTables.DataRows | generate_test_data.py:98-108 | the 2500-line file has exactly 2500 rows |
| TestTables.GenerateTestData | generate_test_data.py:66-113 | the written text is the shuffled 2500 rows, each followed by a newline |
| TestTables.DataVendorOuisWellFormed | generate_test_data.py:100-102 | drawing from VENDORS gives well-formed OUIs |
| TestTables.DataDrawOui | generate_test_data.py:102 | random.choice(ouis) gives a well-formed OUI |
| TestTables.DataAddressesDistinct | generate_test_data.py:62-105 | any two of the 2500 rows carry different IP addresses |
| TestTables.ShuffledDistinct | generate_test_data.py:108 | shuffling rows numbered by a one-to-one address keeps all addresses distinct |
| TestTables.DataRowNumbered | generate_test_data.py:62 | a 2500-line row carries the IP of its running index |
| TestTables.IpOneToOne | generate_test_data.py:53-57 | generate_ip is one-to-one |
| TestTables.DataRowAddress | generate_test_data.py:62-64 | the row at position k carries the IP of index k + 1 |
| TestTables.ShuffledNumbered | generate_test_data.py:108 | after the shuffle, row j carries the address of the position it came from |
| TestTables.DataEntryAddress | generate_test_data.py:62-64 | an entry's address word is the IP of its index |
| TestTables.ArpAddressesRepeat | generator_test.py:153-158 | as written, when Cisco and HP both get rows, two rows of the ARP table carry the same IP 192.168.1.1, because the IP is numbered by the row within its vendor |
| TestTables.ArpAddressesDistinctFixed | generator_test.py:153-158 | numbering the IP by the row's place in the whole list gives every pair of ARP rows different addresses |
| VendorOutput.MakeCsv | vendor_output_handler.py:22-36 | the device CSV is written to output/<stem>-Devices.csv and holds the header MAC, Vendor, VLAN, Port followed by one row per device in dict order |
| VendorOutput.PortRecs | vendor_output_handler.py:48-51 | only devices with a non-empty port take part in the port report |
| VendorOutput.PortRecsSpec | vendor_output_handler.py:48-62 | a record is grouped exactly when it is built from some device that has a non-empty port |
| VendorOutput.Details | vendor_output_handler.py:84-86 | one "mac (vendor, VLAN vlan)" detail per device on the port |
| VendorOutput.WritePortRows | vendor_output_handler.py:75-94 | the writing loop produces exactly the rows PortRows specifies |
| VendorOutput.RowsOf | vendor_output_handler.py:76-94 | one CSV row per port written |
| VendorOutput.RowsOfAt | vendor_output_handler.py:76-94 | the k-th row written is the row of the k-th sorted port and the devices grouped under it |
| VendorOutput.WriteRowsFor | vendor_output_handler.py:76-94 | the loop over the sorted ports writes exactly RowsOf |
| VendorOutput.WritePortRow | vendor_output_handler.py:77-94 | one port's row is port, device count, sorted VLANs, sorted vendors and the sorted device details |
| VendorOutput.SortedKeysIn | vendor_output_handler.py:76 | every sorted port is a key of the grouping |
| VendorOutput.TallyEntry | vendor_output_handler.py:55-64 | a port's group lists exactly the devices on that port |
| VendorOutput.GeneratePortReport | vendor_output_handler.py:38-94 | nothing is written unless the input was a MAC address table; then output/<stem>-Ports.csv gets the header and the port rows |
| VendorOutput.PortsListed | vendor_output_handler.py:76 | the ports are listed once each, in sorted order, and a port is listed exactly when some device has it |
| VendorOutput.PortNamed | vendor_output_handler.py:48-62 | a port is grouped exactly when some device has it as a non-empty port |
| VendorOutput.PortRowSpec | vendor_output_handler.py:77-94 | a listed port has at least one device, its VLAN and vendor counters each add up to its device count, the sorted VLANs and vendors are exactly the counter keys, and the device details are a MAC-ordered permutation of its devices |
| VendorOutput.CounterKeysSorted | vendor_output_handler.py:80-81 | the sorted keys of a Counter are exactly the values counted |
| VendorOutput.SeenOf | vendor_output_handler.py:117-119 | each device is seen with its VLAN, or N/A, and its looked-up vendor |
| VendorOutput.DistributionCounts | vendor_output_handler.py:117-126 | the vendor counts and the VLAN totals each add up to the number of devices, and each VLAN's unique-vendor count is the number of distinct vendors on it |
| VendorOutput.Lookups | vendor_output_handler.py:144-146 | one vendor lookup per device, in dict order |
| VendorOutput.MaxLen | vendor_output_handler.py:151 | the maximum length bounds every vendor name and is reached by one of them |
| VendorOutput.SwapChar | vendor_output_handler.py:174 | separator.replace('-', '=') changes exactly the '-' characters |
| VendorOutput.DoubleSeparator | vendor_output_handler.py:156-174 | the double separator is the separator with every '-' turned into '=' |
| VendorOutput.RowLines | vendor_output_handler.py:161-166 | one summary line per sorted (vendor, count) pair |
| VendorOutput.SummaryLinesShape | vendor_output_handler.py:171-177 | the summary is the title, separator, column header, double separator, one line per row and a closing separator |
| VendorOutput.FourLineHead | vendor_output_handler.py:171-177 | four heading lines, the rows and a closing rule keep their places |
| VendorOutput.CountVendors | vendor_output_handler.py:143-146 | the counting loop yields exactly the Counter of the looked-up vendors, with keys in first-seen order |
| VendorOutput.WriteSummary | vendor_output_handler.py:170-177 | the write loop produces exactly SummaryLines |
| VendorOutput.SaveVendorSummary | vendor_output_handler.py:140-179 | the summary computes exactly SummaryText |
| VendorOutput.SummaryRaises | vendor_output_handler.py:151 | max() over no vendors raises exactly when there are no devices |
| VendorOutput.WidthSpec | vendor_output_handler.py:151-152 | the vendor column is at least 6 wide, fits every vendor name, and is either 6 or the length of some vendor name |
| VendorOutput.SummarySpec | vendor_output_handler.py:140-177 | for a non-empty device table the summary has five lines beyond the rows, opens and closes with the separator, and lists each vendor's row in non-increasing count order |
| VendorOutput.VendorCellNoBar | vendor_output_handler.py:157 | the padded "Vendor" cell is exactly the column width and holds no bar character |
| PortGrouping.OnPort | shadowvendor/utils/vendor_output_handler.py:99-113 | the devices on one port, in order, all from the input |
| PortGrouping.Ports | shadowvendor/utils/vendor_output_handler.py:100 | the port of each device, in order |
| PortGrouping.Vlans | shadowvendor/utils/vendor_output_handler.py:110 | the VLAN of each device, in order |
| PortGrouping.Vendors | shadowvendor/utils/vendor_output_handler.py:111-114 | the vendor of each device, in order |
| PortGrouping.Macs | shadowvendor/utils/vendor_output_handler.py:115 | the MAC of each device, in order |
| PortGrouping.AddToDedup | shadowvendor/utils/vendor_output_handler.py:110-114 | adding to a Python set is de-duplication of the values seen so far plus the new one |
| PortGrouping.SummarySnoc | shadowvendor/utils/vendor_output_handler.py:101-115 | one more device on a port updates its entry to the summary of all devices on it |
| PortGrouping.GroupAt | netvendor/utils/vendor_output_handler.py:66-80 | a port's entry after the loop is exactly the summary of the devices on that port, and absent when none is |
| PortGrouping.PortVendorFrom | netvendor/utils/vendor_output_handler.py:79 | every vendor in a port's vendor set is the vendor of some device |
| PortGrouping.OnOwnPort | netvendor/utils/vendor_output_handler.py:67-80 | every device is grouped under its own port |
| PortGrouping.GroupDistinct | netvendor/utils/vendor_output_handler.py:66-75 | no port has two entries |
| PortGrouping.GroupKeys | netvendor/utils/vendor_output_handler.py:66-75 | the ports grouped are the devices' ports, once each, in first-seen order |
| PortGrouping.GroupKeysStep | netvendor/utils/vendor_output_handler.py:69-75 | one more device adds its port to the keys when it is new |
| PortGrouping.SumTotalsPut | netvendor/utils/vendor_output_handler.py:78 | replacing one port's entry changes the sum of totals by the difference |
| PortGrouping.GroupTotals | netvendor/utils/vendor_output_handler.py:66-80 | the ports' total_devices add up to the number of devices |
| PortGrouping.GroupByPort | netvendor/utils/vendor_output_handler.py:66-80 | the grouping loop builds exactly Group |
| PortGrouping.TallySnoc | vendor_output_handler.py:55-64 | one more device on a port appends it and raises its VLAN and vendor counts |
| PortGrouping.GroupTallyAt | vendor_output_handler.py:48-64 | a port's entry after the loop is exactly the tally of the devices on it, and absent when none is |
| PortGrouping.GroupTallyKeys | vendor_output_handler.py:55-60 | the ports grouped are the devices' ports, once each, in first-seen order |
| PortGrouping.PortsSnoc | vendor_output_handler.py:48-64 | the ports of a list are those of all but the last device, then the last one's |
| PortGrouping.TallyConserved | vendor_output_handler.py:62-64 | a port's VLAN counter and vendor counter each add up to its number of devices |
| PortGrouping.TallyByPort | vendor_output_handler.py:48-64 | the grouping loop builds exactly GroupTally |
| VendorOutput.SeparatorMisaligned | vendor_output_handler.py:156-157 | as written, the separator is two characters shorter than the column header and its second '+' sits two places left of the header's second bar |
| VendorOutput.SeparatorFixedAligned | vendor_output_handler.py:156-157 | with the vendor dashes widened by two, the separator is as long as the column header and has a '+' exactly where the header has a bar |
| PackageSurface.FirstMissing | tests/test_netvendor.py:8-13 | no name is missing exactly when every imported name is defined; a missing one is imported and not defined |
| PackageSurface.FromImport | tests/test_netvendor.py:8-13 | a from-import succeeds exactly when every name is defined by the module, and otherwise raises ImportError for an imported name the module lacks |
| PackageSurface.CallWith | tests/test_netvendor.py:65 | a keyword call succeeds exactly when every keyword is a parameter, and otherwise raises TypeError for a keyword the function lacks |
| PackageSurface.HelpersImportFails | netvendor/utils/helpers.py:5 | as written, importing is_mac_address, is_mac_address_table, parse_port_info and get_format_type from helpers raises ImportError on is_mac_address, the only function helpers defines being get_format_type |
| PackageSurface.HelpersImportFixed | netvendor/core/netvendor.py:26-80 | importing the first three names from netvendor.core.netvendor and get_format_type from helpers succeeds, every name being defined by one of the two |
| PackageSurface.ForcedSaveRaises | netvendor/core/oui_manager.py:106-109 | as written, save_cache(force=True) on the package's OUIManager raises TypeError, its save_cache taking no force parameter |
| PackageSurface.ForcedSaveWrites | NetVendor.py:321-337 | the script's save_cache(force=True) is accepted, writes the value-deduplicated cache once and clears the pending count |

## Left out

- TestData.Scaled: Python computes `int(count * (total_entries / total))` in floating point. The model takes the exact floor of `count * target / total`. `TestData.RebalancedCounts` and `TestData.ScaledBounds` state exact-arithmetic counts that a float rounding step could move by one before Cisco absorbs the difference.
- TestData.PercentOf: the bounds `int(total_entries * 0.18)` and so on are taken as the exact floor of `total * p / 100`. `TestData.DistributionSucceeds` and `TestData.SmallDistributionRaises` rest on that reading, not on binary floating point.
- AppConfig.Config.LoadIni: ConfigParser's own errors are not represented. These are a malformed file, a duplicate section or option, and a failed `%` interpolation when `section[key]` is read. The source does not catch them, so they end the constructor. The model takes the section ConfigParser would return.
- AppConfig.Config.LoadFromFile: YAML, TOML and JSON parsing are a given value per path (the parsed document, or none when the library is missing or the text does not parse). No parser is modelled.
- Text.Lower: ASCII case mapping only. Python's `str.lower` also maps non-ASCII letters.
- Text.Strip: strips ASCII white space only. Python's `str.strip` and `str.split` also treat Unicode white space as separators.
- Text.ParseInt: accepts ASCII digits only. Python's `int()` also accepts other Unicode decimal digits.
- DriftHistory.SnapshotAtSpec: the three values of a `.metadata.json` file are typed as strings. A JSON number or object in those fields is not represented, beyond a file that is not an object making the load raise.
- NetVendorOuiManager.OuiManager: `time.time()` is the field `clock`. It moves only through the sleeps the manager takes and through `Elapse`, which a caller uses for the time passing between calls. Each request's own wall-clock reading is not an independent input.
- NetVendorOuiManager.OuiManager.HasFileChanged: `os.stat` and the md5 of the first and last megabyte are given as a metadata value. The digest is an uninterpreted parameter.
- NetvendorCoreOui.OfflineManager.HasFileChanged: the sha256 over 4096-byte blocks is a digest function parameter. The loop over blocks is modelled; the hash is not.
- SiemExport.ExportSiemEvents: `oui_manager.get_vendor` is a pure function parameter (`vendorOf`), as it is for the three output writers and `ShadowVendorApi.AnalyzeFile`. The lookup's own cache updates, HTTP calls and failures during reporting are not modelled. The CSV pass and the JSON pass get separate lookups so that they may differ. `_current_timestamp` is the run's timestamp parameter. The file names `output/netvendor_siem.csv` and `output/netvendor_siem.json` are not modelled.
- VendorOutput.SummarySpec: the percentages of every vendor summary and the drift table are computed in floating point and formatted with `{:.1f}`. They are a formatting parameter (`pct`) or an opaque cell, never computed.
- NetVendorOuiSpec.BackoffOnly: the 429 backoff multiplies the rate limit as an exact real by 1.5. Python's float rounding of the product is not modelled.
- ShadowVendorScriptMain.ReadFile: `PermissionError`, `UnicodeDecodeError` and other read errors, and every `sys.exit` path outside the empty-file and no-MAC checks, are left out. This covers the argument checks, dependency checks and history archiving.
- Vendor-Finder.py is not part of this model: it is an interactive script built around `input()`, live HTTP, sleeps and file moves.
- The Plotly and HTML dashboards are not modelled: `NetVendor.py:551-805` and `1054-1468`, and the chart parts of the three output handlers. The docs scripts are not modelled either.
- `process_vendor_devices` in `NetVendor.py` is not modelled (chunked reading with text-mode `seek` arithmetic). Neither is `netvendor/core/netvendor.py` `main`, nor `netvendor/utils/runtime_logger.py` (wall-clock JSONL logging).
- Writing files, creating directories, `shutil`, HTTP downloads of `oui.txt` and the Wireshark `manuf` file, and `time.sleep` are left out. The effects the core depends on are values or parameters: the written rows, the parsed documents and the oracle of HTTP answers.
- There is no concurrency anywhere in the source, so none is modelled.

## Findings

| source | as written | input that shows it | evidently intended | confidence | as-written member | corrected member |
|---|---|---|---|---|---|---|
| netvendor/utils/vendor_output_handler.py:35-63 | the device CSV and the port CSV are named by `basename.replace('.txt', ...)` | an input named `switch.log`: both writers use `output/switch.log` | stem-based names `<stem>-Devices.csv` and `<stem>-Ports.csv`, which never collide | not executed | NetVendorOutput.PathsCollide | NetVendorOutput.FixedPathsOfTxt |
| shadowvendor/utils/vendor_output_handler.py:95 | the port report is named by `basename.replace('.txt', '-Ports.csv')`, while `shadowvendor/api.py:236` lists `output/<stem>-Ports.csv` | an input named `macs.log`: the report goes to `output/macs.log` but the API lists `output/macs-Ports.csv` | the stem-based name the API lists | not executed | ShadowVendorOutput.PortsPathUnlisted | ShadowVendorOutput.PortsPathIntended |
| shadowvendor/core/netvendor.py:189 | `words.index(str(vlan))` looks for the VLAN as `int()` re-spells it | the row `010 0011.2233.4455 DYNAMIC Gi1/0/1`: `str(10)` is not a word of the line, so `ValueError` escapes | the VLAN word's own position, accepting zero-padded VLANs | not executed | ShadowCore.UnspelledVlanRaises | ShadowCore.FixedAcceptsLeadingZero |
| generator_test.py:153-158 | `generate_ip(i + 1)` numbers the address by the row's index within its vendor | any table where Cisco and HP both get rows: two rows carry `192.168.1.1` | one address per row, numbered by the row's place in the whole table, as `generate_test_data.py` does | not executed | TestTables.ArpAddressesRepeat | TestTables.ArpAddressesDistinctFixed |
| vendor_output_handler.py:156-157 | the separator has `vendor_width` dashes between the first two `+` | any summary: for width 6 the separator has 29 characters against a 31-character column header | `vendor_width + 2` dashes, so the `+` marks line up with the column bars | not executed | VendorOutput.SeparatorMisaligned | VendorOutput.SeparatorFixedAligned |
| tests/test_netvendor.py:65 | `oui_manager.save_cache(force=True)` on `netvendor.core.oui_manager.OUIManager`, whose `save_cache` (line 106) takes no `force` | the test as written: `TypeError` for the keyword `force` | the forced save of `NetVendor.py:321`, which accepts `force` and writes the cache | not executed | PackageSurface.ForcedSaveRaises | PackageSurface.ForcedSaveWrites |
| tests/test_netvendor.py:8-13 | imports `is_mac_address`, `is_mac_address_table` and `parse_port_info` from `netvendor.utils.helpers` | the import itself: helpers defines only `get_format_type`, so `ImportError` on `is_mac_address` | import the three predicates from `netvendor.core.netvendor` | not executed | PackageSurface.HelpersImportFails | PackageSurface.HelpersImportFixed |
| shadowvendor/utils/update_oui_cache.py:63-66 | the cache is keyed by the `manuf` OUI field verbatim, such as `00:00:0C` | the line `00:00:0C<TAB>Cisco` and the MAC `00000C123456`: `netvendor/core/oui_manager.py:356` looks up `00000C` and finds nothing | keys normalised to six upper-case hex digits, as the lookup expects | not executed | ManufLookup.CiscoLineMisses | ManufLookup.ManufFixedHits |
