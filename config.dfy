/**
 * `getConfig` (src/config.js): the default settings, then every entry of
 * the user package's `tsp` section spread over them. The process working
 * directory is a parameter. Values are `Json` values: the JSON values of
 * package.json whose numbers are non-negative integers. The merge builds a
 * new map and leaves its input alone.
 */
module Config {
  import opened Wrappers
  import opened Numbers
  import opened Json

  type Settings = map<string, Json>

  function Defaults(cwd: string): (d: Settings)
    ensures d.Keys == {"cwd", "runtime", "src", "dist", "tests", "test-files", "tmp", "reports",
                       "generate-json-report", "generate-svg-report"}
  {
    map[
      "cwd" := JStr(cwd),
      "runtime" := JStr("node"),
      "src" := JStr("./src"),
      "dist" := JStr("./dist"),
      "tests" := JStr("./tests"),
      "test-files" := JArr([JStr("test.js")]),
      "tmp" := JStr("./tmp"),
      "reports" := JStr("./reports"),
      "generate-json-report" := JBool(true),
      "generate-svg-report" := JBool(true)
    ]
  }

  /** An object's members as a map; a repeated key keeps its last value, as `JSON.parse` does. */
  function MembersToMap(members: seq<Member>): (m: Settings)
    decreases |members|
  {
    if members == [] then map[]
    else
      var last := members[|members| - 1];
      MembersToMap(members[..|members| - 1])[last.key := last.value]
  }

  /** The own enumerable properties of an array (or of a string's characters): "0", "1", ... */
  function IndexEntries(values: seq<Json>): (m: Settings)
    ensures forall i :: 0 <= i < |values| ==> NatToString(i) in m && m[NatToString(i)] == values[i]
    ensures forall k :: k in m ==> exists i :: 0 <= i < |values| && k == NatToString(i)
  {
    NatToStringInjectiveAll();
    map i | 0 <= i < |values| :: NatToString(i) := values[i]
  }

  /** `(userPackage ?? {})['tsp']`: the `tsp` property of an object, undefined otherwise. */
  function TspSection(userPackage: Option<Json>): (section: Option<Json>)
    ensures section.Some? <==>
      userPackage.Some? && userPackage.value.JObj? &&
      exists i :: 0 <= i < |userPackage.value.members| && userPackage.value.members[i].key == "tsp"
  {
    match userPackage
    case Some(JObj(members)) =>
      MembersToMapKeys(members, "tsp");
      var props := MembersToMap(members);
      if "tsp" in props then Some(props["tsp"]) else None
    case _ => None
  }

  /** The entries `...(section ?? {})` contributes to an object literal. */
  function Spread(section: Option<Json>): (entries: Settings)
    ensures section.None? || section.value.JNull? || section.value.JBool? || section.value.JNum? ==> entries == map[]
    ensures section.Some? && section.value.JArr? ==>
      forall i :: 0 <= i < |section.value.items| ==>
        NatToString(i) in entries && entries[NatToString(i)] == section.value.items[i]
    ensures section.Some? && section.value.JStr? ==>
      forall i :: 0 <= i < |section.value.s| ==>
        NatToString(i) in entries && entries[NatToString(i)] == JStr([section.value.s[i]])
  {
    match section
    case Some(JObj(members)) => MembersToMap(members)
    case Some(JArr(items)) => IndexEntries(items)
    case Some(JStr(s)) => IndexEntries(seq(|s|, i requires 0 <= i < |s| => JStr([s[i]])))
    case _ => map[]
  }

  /** The user's settings: the spread of the `tsp` section. */
  function UserSettings(userPackage: Option<Json>): Settings
  {
    Spread(TspSection(userPackage))
  }

  /** `getConfig(userPackage)` with `process.cwd()` passed in as `cwd`. */
  function GetConfig(userPackage: Option<Json>, cwd: string): (r: Settings)
    ensures r.Keys == Defaults(cwd).Keys + UserSettings(userPackage).Keys
    ensures forall k :: k in UserSettings(userPackage) ==> r[k] == UserSettings(userPackage)[k]
    ensures forall k :: k in Defaults(cwd) && k !in UserSettings(userPackage) ==> r[k] == Defaults(cwd)[k]
  {
    Defaults(cwd) + UserSettings(userPackage)
  }

  /** A key is in an object's map exactly when some member has it, and maps to the last such member's value. */
  lemma {:induction false} MembersToMapLast(members: seq<Member>, i: nat)
    requires i < |members|
    requires forall j :: i < j < |members| ==> members[j].key != members[i].key
    ensures members[i].key in MembersToMap(members)
    ensures MembersToMap(members)[members[i].key] == members[i].value
    decreases |members|
  {
    if i < |members| - 1 {
      MembersToMapLast(members[..|members| - 1], i);
    }
  }

  lemma {:induction false} MembersToMapKeys(members: seq<Member>, k: string)
    ensures k in MembersToMap(members) <==> exists i :: 0 <= i < |members| && members[i].key == k
    decreases |members|
  {
    if members != [] {
      var init := members[..|members| - 1];
      MembersToMapKeys(init, k);
      if k in MembersToMap(init) {
        var i :| 0 <= i < |init| && init[i].key == k;
        assert members[i].key == k;
      }
      if exists i :: 0 <= i < |members| && members[i].key == k {
        var i :| 0 <= i < |members| && members[i].key == k;
        if i < |init| {
          assert init[i].key == k;
        }
      }
    }
  }

  /** Without a package, or without a `tsp` section, the configuration is exactly the defaults. */
  lemma NoUserSettings(userPackage: Option<Json>, cwd: string)
    requires TspSection(userPackage) == None || TspSection(userPackage) == Some(JNull)
    ensures GetConfig(userPackage, cwd) == Defaults(cwd)
  {
    assert UserSettings(userPackage) == map[];
    assert Defaults(cwd) + map[] == Defaults(cwd);
  }

  /**
   * Every key of a `tsp` object overrides the default, with the last value
   * written for it; the defaults it does not mention stay.
   */
  lemma TspOverrides(userPackage: Option<Json>, cwd: string, members: seq<Member>, i: nat)
    requires TspSection(userPackage) == Some(JObj(members))
    requires i < |members|
    requires forall j :: i < j < |members| ==> members[j].key != members[i].key
    ensures members[i].key in GetConfig(userPackage, cwd)
    ensures GetConfig(userPackage, cwd)[members[i].key] == members[i].value
  {
    MembersToMapLast(members, i);
    assert UserSettings(userPackage) == MembersToMap(members);
  }

  lemma TspKeepsDefaults(userPackage: Option<Json>, cwd: string, members: seq<Member>, k: string)
    requires TspSection(userPackage) == Some(JObj(members))
    requires k in Defaults(cwd)
    requires forall i :: 0 <= i < |members| ==> members[i].key != k
    ensures GetConfig(userPackage, cwd)[k] == Defaults(cwd)[k]
  {
    MembersToMapKeys(members, k);
  }

  /** `cwd` is the working directory unless the `tsp` section itself sets `cwd`. */
  lemma ConfigCwd(userPackage: Option<Json>, cwd: string)
    ensures GetConfig(userPackage, cwd)["cwd"] ==
      if "cwd" in UserSettings(userPackage) then UserSettings(userPackage)["cwd"] else JStr(cwd)
  {
  }

  /** A `tsp` array spreads as index-named settings "0", "1", ... over the defaults. */
  lemma TspArraySpread(userPackage: Option<Json>, cwd: string, items: seq<Json>, i: nat)
    requires TspSection(userPackage) == Some(JArr(items))
    requires i < |items|
    ensures GetConfig(userPackage, cwd)[NatToString(i)] == items[i]
  {
  }
}
