/**
 * How the packaged tool's test module reaches the code it tests. A
 * `from <module> import <names>` statement needs every name to be defined
 * at the top of that module, and a call with keyword arguments needs every
 * keyword to name a parameter of the function; otherwise Python raises
 * ImportError or TypeError before the call does anything. A module or a
 * signature is modelled by the set of names it defines.
 */
module PackageSurface {
  import opened Common
  import NetVendorOuiSpec
  import NetVendorOui

  datatype Raised = ImportError(name: string) | TypeError(keyword: string)

  /** The first of the wanted names that is not defined, if any. */
  function FirstMissing(defined: set<string>, wanted: seq<string>): (r: Option<string>)
    ensures r.None? <==> forall i :: 0 <= i < |wanted| ==> wanted[i] in defined
    ensures r.Some? ==> r.value in wanted && r.value !in defined
  {
    if wanted == [] then None
    else if wanted[0] !in defined then Some(wanted[0])
    else
      var rest := FirstMissing(defined, wanted[1..]);
      assert forall i :: 1 <= i < |wanted| ==> wanted[i] == wanted[1..][i - 1];
      rest
  }

  /** from m import names: the names, or ImportError for the first one m does not define. */
  function FromImport(defined: set<string>, names: seq<string>): (r: Result<seq<string>, Raised>)
    ensures r.Ok? <==> forall i :: 0 <= i < |names| ==> names[i] in defined
    ensures r.Err? ==> r.error.ImportError? && r.error.name in names && r.error.name !in defined
  {
    var missing := FirstMissing(defined, names);
    if missing.Some? then Err(ImportError(missing.value)) else Ok(names)
  }

  /** f(**kwargs): the keywords bound, or TypeError for the first one that is no parameter of f. */
  function CallWith(params: set<string>, keywords: seq<string>): (r: Result<seq<string>, Raised>)
    ensures r.Ok? <==> forall i :: 0 <= i < |keywords| ==> keywords[i] in params
    ensures r.Err? ==> r.error.TypeError? && r.error.keyword in keywords && r.error.keyword !in params
  {
    var missing := FirstMissing(params, keywords);
    if missing.Some? then Err(TypeError(missing.value)) else Ok(keywords)
  }

  // ---------------------------------------------------------------------
  // The helpers import of tests/test_netvendor.py
  // ---------------------------------------------------------------------

  /** netvendor/utils/helpers.py defines get_format_type and nothing else. */
  const HelpersNames: set<string> := {"get_format_type"}

  /** netvendor/core/netvendor.py defines the three checks the tests call, besides check_dependencies and main. */
  const CoreNames: set<string> := {"check_dependencies", "is_mac_address", "is_mac_address_table", "parse_port_info", "main"}

  /** The names the test module asks netvendor.utils.helpers for. */
  const TestImports: seq<string> := ["is_mac_address", "is_mac_address_table", "parse_port_info", "get_format_type"]

  /** As written the import fails on its first name, so no test of the module runs. */
  lemma HelpersImportFails()
    ensures FromImport(HelpersNames, TestImports) == Err(ImportError("is_mac_address"))
  {
    assert FirstMissing(HelpersNames, TestImports) == Some("is_mac_address");
  }

  /** Taking the three checks from netvendor.core.netvendor and get_format_type from the helpers binds every name. */
  lemma HelpersImportFixed()
    ensures FromImport(CoreNames, TestImports[..3]).Ok?
    ensures FromImport(HelpersNames, TestImports[3..]).Ok?
    ensures forall i :: 0 <= i < |TestImports| ==> TestImports[i] in CoreNames + HelpersNames
  {
    assert TestImports[..3] == ["is_mac_address", "is_mac_address_table", "parse_port_info"];
    assert TestImports[3..] == ["get_format_type"];
  }

  // ---------------------------------------------------------------------
  // save_cache(force=True) in tests/test_netvendor.py
  // ---------------------------------------------------------------------

  /** The parameters of save_cache in netvendor/core/oui_manager.py: self only. */
  const OfflineSaveCacheParams: set<string> := {"self"}

  /** The parameters of save_cache in NetVendor.py: self and force. */
  const SaveCacheParams: set<string> := {"self", "force"}

  /** As written the offline manager's save_cache rejects the keyword the test passes. */
  lemma ForcedSaveRaises()
    ensures CallWith(OfflineSaveCacheParams, ["force"]) == Err(TypeError("force"))
  {
    assert FirstMissing(OfflineSaveCacheParams, ["force"]) == Some("force");
  }

  /**
   * With the signature save_cache(self, force=False) the call binds, and a
   * forced save writes the deduplicated cache at once and clears the
   * pending-save counter, whatever the counter held.
   */
  lemma ForcedSaveWrites(m: NetVendorOui.Manager)
    ensures CallWith(SaveCacheParams, ["force"]).Ok?
    ensures NetVendorOui.SaveCache(m, true).cacheWrites == m.cacheWrites + [NetVendorOuiSpec.UniqueByValue(m.cache)]
    ensures NetVendorOui.SaveCache(m, true).pending == 0
  {
    assert FirstMissing(SaveCacheParams, ["force"]) == None;
  }
}
