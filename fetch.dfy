/**
 * The per-key merge of `fetchDataForKey`: one row built from the ORG_DATA
 * namespace (the agent's display name and the date the organisation was
 * added) and the ORG_CACHE namespace (the organisation's name, legal form and
 * postal town, as cached from the company register).
 */
module RecordFetcher {
  import opened Wrappers
  import opened JsonValues

  /** The sentinel every field starts from. */
  const NotAvailable: Json := JStr("N/A")
  /** The sentinel of the legal form when the nested organisation is present. */
  const NotStated: Json := JStr("N/S")

  /** One aggregated row; the field order is the key order of the object the worker returns. */
  datatype Row = Row(orgNr: Json, namn: Json, form: Json, postort: Json, ombud: Json, tillagd: Json)

  /** The two read-only KV namespaces: the text stored under each key. */
  datatype Stores = Stores(orgData: map<string, string>, orgCache: map<string, string>)

  /**
   * The library calls the worker makes: `JSON.parse` and
   * `new Date(x).toISOString()`; `None` means the call throws.
   */
  datatype Runtime = Runtime(parse: string -> Option<Json>, isoString: Json -> Option<string>)

  /** The fields filled from ORG_DATA. */
  datatype AgentFields = AgentFields(ombud: Json, tillagd: Json)

  /** The fields filled from ORG_CACHE. */
  datatype OrgFields = OrgFields(namn: Json, form: Json, postort: Json)

  /** The text a KV namespace is asked for: the key converted to a string. */
  function KvKey(key: Json): string
  {
    JsString(key)
  }

  /** `iso.split('T')[0]`: the part of the ISO timestamp before its first 'T'. */
  function DatePart(iso: string): (r: string)
    ensures 'T' !in r
    ensures r <= iso
    ensures r == iso || iso[|r|] == 'T'
  {
    if iso == [] || iso[0] == 'T' then [] else [iso[0]] + DatePart(iso[1..])
  }

  /** The date part is exactly what precedes the first 'T'. */
  lemma {:induction false} DatePartOfSplit(date: string, rest: string)
    requires 'T' !in date
    ensures DatePart(date + "T" + rest) == date
  {
    if date != [] {
      assert (date + "T" + rest)[1..] == date[1..] + "T" + rest;
      DatePartOfSplit(date[1..], rest);
    }
  }

  /**
   * Step 1 of the merge. Only a stored, parsable payload changes anything:
   * `ombud` becomes its truthy `organizationDisplayName` or stays "N/A", and
   * `tillagd` becomes the date part of `firstSeen` when that is truthy and
   * converts to a date; a conversion that throws leaves `ombud` as assigned.
   */
  function AgentFieldsOf(orgData: map<string, string>, rt: Runtime, key: Json): AgentFields
  {
    var k := KvKey(key);
    if k !in orgData then AgentFields(NotAvailable, NotAvailable)
    else
      match rt.parse(orgData[k])
      case None => AgentFields(NotAvailable, NotAvailable)
      case Some(data1) =>
        var ombud := OrElse(Prop(Some(data1), "organizationDisplayName"), NotAvailable);
        var firstSeen := Prop(Some(data1), "firstSeen");
        if !Truthy(firstSeen) then AgentFields(ombud, NotAvailable)
        else
          match rt.isoString(firstSeen.value)
          case None => AgentFields(ombud, NotAvailable)
          case Some(iso) => AgentFields(ombud, JStr(DatePart(iso)))
  }

  /** The cases of `AgentFieldsOf`, one clause per branch of the source. */
  lemma AgentFieldsCases(orgData: map<string, string>, rt: Runtime, key: Json)
    ensures var r := AgentFieldsOf(orgData, rt, key);
            KvKey(key) !in orgData ==> r == AgentFields(NotAvailable, NotAvailable)
    ensures var r := AgentFieldsOf(orgData, rt, key);
            KvKey(key) in orgData && rt.parse(orgData[KvKey(key)]).None? ==>
              r == AgentFields(NotAvailable, NotAvailable)
    ensures var r := AgentFieldsOf(orgData, rt, key);
            KvKey(key) in orgData && rt.parse(orgData[KvKey(key)]).Some? ==>
              var data1 := rt.parse(orgData[KvKey(key)]);
              var name := Prop(data1, "organizationDisplayName");
              var firstSeen := Prop(data1, "firstSeen");
              && (Truthy(name) ==> Some(r.ombud) == name)
              && (!Truthy(name) ==> r.ombud == NotAvailable)
              && (!Truthy(firstSeen) ==> r.tillagd == NotAvailable)
              && (Truthy(firstSeen) && rt.isoString(firstSeen.value).None? ==> r.tillagd == NotAvailable)
              && (Truthy(firstSeen) && rt.isoString(firstSeen.value).Some? ==>
                    r.tillagd == JStr(DatePart(rt.isoString(firstSeen.value).value)))
    ensures var r := AgentFieldsOf(orgData, rt, key);
            r.ombud == NotAvailable || Truthy(Some(r.ombud))
    ensures var r := AgentFieldsOf(orgData, rt, key);
            r.tillagd == NotAvailable || (r.tillagd.JStr? && 'T' !in r.tillagd.s)
    ensures var r := AgentFieldsOf(orgData, rt, key);
            r.tillagd != NotAvailable ==>
              && KvKey(key) in orgData
              && var firstSeen := Prop(rt.parse(orgData[KvKey(key)]), "firstSeen");
              && Truthy(firstSeen)
              && rt.isoString(firstSeen.value).Some?
              && r.tillagd == JStr(DatePart(rt.isoString(firstSeen.value).value))
  {
  }

  /** `data2?.data?.organisationer?.[0]`: the first organisation of a register payload. */
  function FirstOrganisation(data2: Json): Value
  {
    Index0(Prop(Prop(Some(data2), "data"), "organisationer"))
  }

  /** The nested name: `orgInfo.organisationsnamn?.organisationsnamnLista?.[0]?.namn`. */
  function NestedName(orgInfo: Value): Value
  {
    Prop(Index0(Prop(Prop(orgInfo, "organisationsnamn"), "organisationsnamnLista")), "namn")
  }

  /** The nested legal form: `orgInfo.juridiskForm?.klartext`. */
  function NestedForm(orgInfo: Value): Value
  {
    Prop(Prop(orgInfo, "juridiskForm"), "klartext")
  }

  /** The nested postal town: `orgInfo.postadressOrganisation?.postadress?.postort`. */
  function NestedPostort(orgInfo: Value): Value
  {
    Prop(Prop(Prop(orgInfo, "postadressOrganisation"), "postadress"), "postort")
  }

  /**
   * Step 2 of the merge. An absent or unparsable payload leaves all three
   * fields at "N/A". With a first organisation present each field takes the
   * truthy nested value, else the truthy flat value, else its sentinel, which
   * for the legal form is "N/S"; without one only the flat values are used.
   */
  function OrgFieldsOf(orgCache: map<string, string>, rt: Runtime, key: Json): OrgFields
  {
    var k := KvKey(key);
    if k !in orgCache then OrgFields(NotAvailable, NotAvailable, NotAvailable)
    else
      match rt.parse(orgCache[k])
      case None => OrgFields(NotAvailable, NotAvailable, NotAvailable)
      case Some(data2) =>
        var d := Some(data2);
        var orgInfo := FirstOrganisation(data2);
        if Truthy(orgInfo) then
          OrgFields(
            OrElse(Or(NestedName(orgInfo), Prop(d, "name")), NotAvailable),
            OrElse(Or(NestedForm(orgInfo), Prop(d, "form")), NotStated),
            OrElse(Or(NestedPostort(orgInfo), Prop(d, "postort")), NotAvailable))
        else
          OrgFields(
            OrElse(Prop(d, "name"), NotAvailable),
            OrElse(Prop(d, "form"), NotAvailable),
            OrElse(Prop(d, "postort"), NotAvailable))
  }

  /** The cases of `OrgFieldsOf`, one clause per branch of the source. */
  lemma OrgFieldsCases(orgCache: map<string, string>, rt: Runtime, key: Json)
    ensures var r := OrgFieldsOf(orgCache, rt, key);
            KvKey(key) !in orgCache ==> r == OrgFields(NotAvailable, NotAvailable, NotAvailable)
    ensures var r := OrgFieldsOf(orgCache, rt, key);
            KvKey(key) in orgCache && rt.parse(orgCache[KvKey(key)]).None? ==>
              r == OrgFields(NotAvailable, NotAvailable, NotAvailable)
    ensures var r := OrgFieldsOf(orgCache, rt, key);
            KvKey(key) in orgCache && rt.parse(orgCache[KvKey(key)]).Some? ==>
              var data2 := rt.parse(orgCache[KvKey(key)]);
              var orgInfo := FirstOrganisation(data2.value);
              && (Truthy(orgInfo) && Truthy(NestedName(orgInfo)) ==> Some(r.namn) == NestedName(orgInfo))
              && (Truthy(orgInfo) && Truthy(NestedForm(orgInfo)) ==> Some(r.form) == NestedForm(orgInfo))
              && (Truthy(orgInfo) && Truthy(NestedPostort(orgInfo)) ==> Some(r.postort) == NestedPostort(orgInfo))
              && (Truthy(orgInfo) && !Truthy(NestedForm(orgInfo)) ==> r.form == OrElse(Prop(data2, "form"), NotStated))
              && (!Truthy(orgInfo) ==> r.form == OrElse(Prop(data2, "form"), NotAvailable))
              && (!(Truthy(orgInfo) && Truthy(NestedName(orgInfo))) ==> r.namn == OrElse(Prop(data2, "name"), NotAvailable))
              && (!(Truthy(orgInfo) && Truthy(NestedPostort(orgInfo))) ==>
                    r.postort == OrElse(Prop(data2, "postort"), NotAvailable))
    ensures var r := OrgFieldsOf(orgCache, rt, key);
            r.namn == NotAvailable || Truthy(Some(r.namn))
    ensures var r := OrgFieldsOf(orgCache, rt, key);
            r.form == NotAvailable || r.form == NotStated || Truthy(Some(r.form))
    ensures var r := OrgFieldsOf(orgCache, rt, key);
            r.postort == NotAvailable || Truthy(Some(r.postort))
  {
  }

  /**
   * The merged row for one key. The two namespaces are read independently:
   * the ORG_DATA fields depend on ORG_DATA alone and the ORG_CACHE fields on
   * ORG_CACHE alone, so one namespace's missing or unparsable payload leaves
   * only its own fields at the sentinel.
   */
  function FetchRow(stores: Stores, rt: Runtime, key: Json): Row
  {
    var agent := AgentFieldsOf(stores.orgData, rt, key);
    var org := OrgFieldsOf(stores.orgCache, rt, key);
    Row(key, org.namn, org.form, org.postort, agent.ombud, agent.tillagd)
  }

  /**
   * The row carries its key, and each namespace decides its own fields:
   * two states that agree on ORG_DATA give the same agent fields, two that
   * agree on ORG_CACHE the same register fields.
   */
  lemma NamespacesIndependent(s1: Stores, s2: Stores, rt: Runtime, key: Json)
    ensures FetchRow(s1, rt, key).orgNr == key
    ensures s1.orgData == s2.orgData ==>
              && FetchRow(s1, rt, key).ombud == FetchRow(s2, rt, key).ombud
              && FetchRow(s1, rt, key).tillagd == FetchRow(s2, rt, key).tillagd
    ensures s1.orgCache == s2.orgCache ==>
              && FetchRow(s1, rt, key).namn == FetchRow(s2, rt, key).namn
              && FetchRow(s1, rt, key).form == FetchRow(s2, rt, key).form
              && FetchRow(s1, rt, key).postort == FetchRow(s2, rt, key).postort
  {
  }

  /** A key found in neither namespace gives a row that is "N/A" everywhere but its key. */
  lemma AbsentKeyRow(stores: Stores, rt: Runtime, key: Json)
    requires KvKey(key) !in stores.orgData && KvKey(key) !in stores.orgCache
    ensures FetchRow(stores, rt, key)
            == Row(key, NotAvailable, NotAvailable, NotAvailable, NotAvailable, NotAvailable)
  {
  }

  /**
   * `fetchDataForKey`: five variables start at "N/A" and each step reassigns
   * its own; the result is the merged row.
   */
  method FetchDataForKey(stores: Stores, rt: Runtime, orgNr: Json) returns (row: Row)
    ensures row == FetchRow(stores, rt, orgNr)
  {
    var ombud, tillagd, namn, form, postort := NotAvailable, NotAvailable, NotAvailable, NotAvailable, NotAvailable;
    var k := KvKey(orgNr);

    // Step 1: ORG_DATA.
    if k in stores.orgData {
      var parsed := rt.parse(stores.orgData[k]);
      if parsed.Some? {
        ombud := OrElse(Prop(parsed, "organizationDisplayName"), NotAvailable);
        var firstSeen := Prop(parsed, "firstSeen");
        if Truthy(firstSeen) {
          var iso := rt.isoString(firstSeen.value);
          if iso.Some? {
            tillagd := JStr(DatePart(iso.value));
          }
        }
      }
    }

    // Step 2: ORG_CACHE.
    if k in stores.orgCache {
      var parsed := rt.parse(stores.orgCache[k]);
      if parsed.Some? {
        var orgInfo := FirstOrganisation(parsed.value);
        if Truthy(orgInfo) {
          namn := OrElse(Or(NestedName(orgInfo), Prop(parsed, "name")), NotAvailable);
          form := OrElse(Or(NestedForm(orgInfo), Prop(parsed, "form")), NotStated);
          postort := OrElse(Or(NestedPostort(orgInfo), Prop(parsed, "postort")), NotAvailable);
        } else {
          namn := OrElse(Prop(parsed, "name"), NotAvailable);
          form := OrElse(Prop(parsed, "form"), NotAvailable);
          postort := OrElse(Prop(parsed, "postort"), NotAvailable);
        }
      }
    }

    row := Row(orgNr, namn, form, postort, ombud, tillagd);
  }
}
