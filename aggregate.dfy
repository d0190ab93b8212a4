/**
 * `buildAggregatedData`: read the key list stored under "org_list" in
 * ORG_DATA, merge one row per key, and collect the rows in key order
 * (`Promise.allSettled` reports its results by input position).
 */
module Aggregator {
  import opened Wrappers
  import opened JsonValues
  import opened RecordFetcher

  /** The ORG_DATA key under which the JSON array of organisation numbers is stored. */
  const OrgListKey: string := "org_list"

  /** Why the key list could not be read; every one of them fails the whole build. */
  datatype BuildError = OrgListMissing | OrgListUnparsable | OrgListNotArray

  /**
   * Key lookup: the build fails when "org_list" is absent, is not valid
   * JSON, or is not a JSON array; otherwise the array's elements, in order.
   */
  function KeyList(orgData: map<string, string>, rt: Runtime): (r: Result<seq<Json>, BuildError>)
    ensures r == Failure(OrgListMissing) <==> OrgListKey !in orgData
    ensures r == Failure(OrgListUnparsable) <==> OrgListKey in orgData && rt.parse(orgData[OrgListKey]).None?
    ensures r == Failure(OrgListNotArray) <==>
              OrgListKey in orgData && rt.parse(orgData[OrgListKey]).Some? && !rt.parse(orgData[OrgListKey]).value.JArr?
    ensures r.Success? ==> OrgListKey in orgData && rt.parse(orgData[OrgListKey]) == Some(JArr(r.value))
  {
    if OrgListKey !in orgData then Failure(OrgListMissing)
    else
      match rt.parse(orgData[OrgListKey])
      case None => Failure(OrgListUnparsable)
      case Some(JArr(items)) => Success(items)
      case Some(_) => Failure(OrgListNotArray)
  }

  /** The merged rows of the given keys, one per key, in key order. */
  function FetchAll(stores: Stores, rt: Runtime, keys: seq<Json>): (rows: seq<Row>)
    ensures |rows| == |keys|
    ensures forall i :: 0 <= i < |keys| ==> rows[i] == FetchRow(stores, rt, keys[i])
  {
    if keys == [] then [] else [FetchRow(stores, rt, keys[0])] + FetchAll(stores, rt, keys[1..])
  }

  /** The aggregate: the key list's failure, or the rows of its keys (none for an empty list). */
  function AggregateOf(stores: Stores, rt: Runtime): Result<seq<Row>, BuildError>
  {
    match KeyList(stores.orgData, rt)
    case Failure(e) => Failure(e)
    case Success(keys) => if |keys| == 0 then Success([]) else Success(FetchAll(stores, rt, keys))
  }

  /**
   * A key-list failure is the build's failure; otherwise there is exactly
   * one row per key, in key order, each the merged row of its key, so every
   * row's `orgNr` is a key from the list.
   */
  lemma AggregateRows(stores: Stores, rt: Runtime)
    ensures KeyList(stores.orgData, rt).Failure? ==>
              AggregateOf(stores, rt) == Failure(KeyList(stores.orgData, rt).error)
    ensures KeyList(stores.orgData, rt).Success? ==>
              var keys := KeyList(stores.orgData, rt).value;
              var r := AggregateOf(stores, rt);
              && r.Success?
              && |r.value| == |keys|
              && (forall i :: 0 <= i < |keys| ==> r.value[i] == FetchRow(stores, rt, keys[i]))
              && (forall row :: row in r.value ==> row.orgNr in keys)
  {
  }

  /**
   * `buildAggregatedData`: the key list is validated step by step, then every
   * key is fetched and its row appended in key order.
   */
  method BuildAggregatedData(stores: Stores, rt: Runtime) returns (r: Result<seq<Row>, BuildError>)
    ensures r == AggregateOf(stores, rt)
  {
    if OrgListKey !in stores.orgData {
      return Failure(OrgListMissing);
    }
    var parsed := rt.parse(stores.orgData[OrgListKey]);
    if parsed.None? {
      return Failure(OrgListUnparsable);
    }
    if !parsed.value.JArr? {
      return Failure(OrgListNotArray);
    }
    var keysList := parsed.value.items;
    if |keysList| == 0 {
      return Success([]);
    }

    var aggregated: seq<Row> := [];
    var i := 0;
    while i < |keysList|
      invariant 0 <= i <= |keysList|
      invariant |aggregated| == i
      invariant forall j :: 0 <= j < i ==> aggregated[j] == FetchRow(stores, rt, keysList[j])
    {
      var row := FetchDataForKey(stores, rt, keysList[i]);
      aggregated := aggregated + [row];
      i := i + 1;
    }
    assert KeyList(stores.orgData, rt) == Success(keysList);
    assert aggregated == FetchAll(stores, rt, keysList);
    return Success(aggregated);
  }

  /** The register payload of the scenario below: one organisation with a nested name, form and town. */
  function ScenarioRegister(): Json
  {
    JObj(map["data" := JObj(map["organisationer" := JArr([JObj(map[
      "organisationsnamn" := JObj(map["organisationsnamnLista" := JArr([JObj(map["namn" := JStr("Acme Inc")])])]),
      "juridiskForm" := JObj(map["klartext" := JStr("AB")]),
      "postadressOrganisation" := JObj(map["postadress" := JObj(map["postort" := JStr("Stockholm")])])])])])])
  }

  lemma ScenarioAgent(orgData: map<string, string>, rt: Runtime, agentText: string)
    requires "A1" in orgData && orgData["A1"] == agentText
    requires rt.parse(agentText) == Some(JObj(map[
               "organizationDisplayName" := JStr("Acme Rep"),
               "firstSeen" := JStr("2024-01-05T00:00:00Z")]))
    requires rt.isoString(JStr("2024-01-05T00:00:00Z")) == Some("2024-01-05T00:00:00.000Z")
    ensures AgentFieldsOf(orgData, rt, JStr("A1")) == AgentFields(JStr("Acme Rep"), JStr("2024-01-05"))
  {
    assert KvKey(JStr("A1")) == "A1";
    assert "2024-01-05" + "T" + "00:00:00.000Z" == "2024-01-05T00:00:00.000Z";
    AgentFromPayload(orgData, rt, JStr("A1"), "Acme Rep", "2024-01-05T00:00:00Z",
                     "2024-01-05", "00:00:00.000Z");
  }

  /** A stored payload with a name and a convertible first-seen time yields the name and the date. */
  lemma AgentFromPayload(orgData: map<string, string>, rt: Runtime, key: Json,
                         name: string, seen: string, date: string, time: string)
    requires KvKey(key) in orgData
    requires rt.parse(orgData[KvKey(key)]) == Some(JObj(map[
               "organizationDisplayName" := JStr(name), "firstSeen" := JStr(seen)]))
    requires name != "" && seen != ""
    requires rt.isoString(JStr(seen)) == Some(date + "T" + time)
    requires 'T' !in date
    ensures AgentFieldsOf(orgData, rt, key) == AgentFields(JStr(name), JStr(date))
  {
    var agent := rt.parse(orgData[KvKey(key)]);
    assert Prop(agent, "firstSeen") == Some(JStr(seen));
    assert Prop(agent, "organizationDisplayName") == Some(JStr(name));
    DatePartOfSplit(date, time);
  }

  lemma ScenarioOrg(orgCache: map<string, string>, rt: Runtime, registerText: string)
    requires "A1" in orgCache && orgCache["A1"] == registerText
    requires rt.parse(registerText) == Some(ScenarioRegister())
    ensures OrgFieldsOf(orgCache, rt, JStr("A1")) == OrgFields(JStr("Acme Inc"), JStr("AB"), JStr("Stockholm"))
  {
    assert KvKey(JStr("A1")) == "A1";
    var orgInfo := FirstOrganisation(ScenarioRegister());
    assert Truthy(orgInfo);
    assert NestedName(orgInfo) == Some(JStr("Acme Inc"));
    assert NestedForm(orgInfo) == Some(JStr("AB"));
    assert NestedPostort(orgInfo) == Some(JStr("Stockholm"));
  }

  /**
   * Two keys, the first with a payload in both namespaces, the second in
   * neither: the first row takes the nested register fields and the agent's
   * name and date, the second is "N/A" everywhere but its key.
   */
  lemma TwoKeyScenario(rt: Runtime, listText: string, agentText: string, registerText: string)
    requires rt.parse(listText) == Some(JArr([JStr("A1"), JStr("A2")]))
    requires rt.parse(agentText) == Some(JObj(map[
               "organizationDisplayName" := JStr("Acme Rep"),
               "firstSeen" := JStr("2024-01-05T00:00:00Z")]))
    requires rt.parse(registerText) == Some(ScenarioRegister())
    requires rt.isoString(JStr("2024-01-05T00:00:00Z")) == Some("2024-01-05T00:00:00.000Z")
    ensures AggregateOf(Stores(map[OrgListKey := listText, "A1" := agentText], map["A1" := registerText]), rt)
            == Success([
                 Row(JStr("A1"), JStr("Acme Inc"), JStr("AB"), JStr("Stockholm"), JStr("Acme Rep"), JStr("2024-01-05")),
                 Row(JStr("A2"), NotAvailable, NotAvailable, NotAvailable, NotAvailable, NotAvailable)])
  {
    var stores := Stores(map[OrgListKey := listText, "A1" := agentText], map["A1" := registerText]);
    var a1, a2 := JStr("A1"), JStr("A2");
    assert KeyList(stores.orgData, rt) == Success([a1, a2]);
    assert "A2" !in stores.orgData && "A2" !in stores.orgCache;
    ScenarioFirstRow(stores, rt, agentText, registerText);
    ScenarioSecondRow(stores, rt);
    FetchAllPair(stores, rt, a1, a2);
  }

  lemma ScenarioFirstRow(stores: Stores, rt: Runtime, agentText: string, registerText: string)
    requires "A1" in stores.orgData && stores.orgData["A1"] == agentText
    requires "A1" in stores.orgCache && stores.orgCache["A1"] == registerText
    requires rt.parse(agentText) == Some(JObj(map[
               "organizationDisplayName" := JStr("Acme Rep"),
               "firstSeen" := JStr("2024-01-05T00:00:00Z")]))
    requires rt.parse(registerText) == Some(ScenarioRegister())
    requires rt.isoString(JStr("2024-01-05T00:00:00Z")) == Some("2024-01-05T00:00:00.000Z")
    ensures FetchRow(stores, rt, JStr("A1"))
            == Row(JStr("A1"), JStr("Acme Inc"), JStr("AB"), JStr("Stockholm"), JStr("Acme Rep"), JStr("2024-01-05"))
  {
    ScenarioAgent(stores.orgData, rt, agentText);
    ScenarioOrg(stores.orgCache, rt, registerText);
  }

  lemma ScenarioSecondRow(stores: Stores, rt: Runtime)
    requires "A2" !in stores.orgData && "A2" !in stores.orgCache
    ensures FetchRow(stores, rt, JStr("A2"))
            == Row(JStr("A2"), NotAvailable, NotAvailable, NotAvailable, NotAvailable, NotAvailable)
  {
    assert KvKey(JStr("A2")) == "A2";
    AbsentKeyRow(stores, rt, JStr("A2"));
  }

  lemma FetchAllPair(stores: Stores, rt: Runtime, a: Json, b: Json)
    ensures FetchAll(stores, rt, [a, b]) == [FetchRow(stores, rt, a), FetchRow(stores, rt, b)]
  {
  }
}
