/** The lead status table and the lookups derived from it. */
module LeadStatus {
  import opened Base

  /** One status entry; `title` is the entry's `label` (a reserved word in Dafny). */
  datatype StatusConfig = StatusConfig(value: string, title: string, pillClass: string)

  /** `LEAD_STATUSES`, in declared order. */
  const LEAD_STATUSES: seq<StatusConfig> := [
    StatusConfig("new", "New", "bg-blue-50 border-blue-200 text-blue-700"),
    StatusConfig("contacted", "Contacted", "bg-purple-50 border-purple-200 text-purple-700"),
    StatusConfig("qualified", "Qualified", "bg-amber-50 border-amber-200 text-amber-700"),
    StatusConfig("proposal", "Proposal", "bg-slate-100 border-slate-200 text-slate-700"),
    StatusConfig("won", "Won", "bg-green-50 border-green-200 text-green-700"),
    StatusConfig("unqualified", "Un-Qualified", "bg-red-50 border-amber-200 text-amber-700"),
    StatusConfig("lost", "Lost", "bg-red-50 border-red-200 text-red-700")
  ]

  /** `.map(s => s.value)` over any status table. */
  function Values(cs: seq<StatusConfig>): (vs: seq<string>)
    ensures |vs| == |cs|
    ensures forall i :: 0 <= i < |cs| ==> vs[i] == cs[i].value
  {
    if cs == [] then [] else [cs[0].value] + Values(cs[1..])
  }

  /** `.map(({ value, label }) => ({ value, label }))`. */
  function Options(cs: seq<StatusConfig>): (os: seq<(string, string)>)
    ensures |os| == |cs|
    ensures forall i :: 0 <= i < |cs| ==> os[i] == (cs[i].value, cs[i].title)
  {
    if cs == [] then [] else [(cs[0].value, cs[0].title)] + Options(cs[1..])
  }

  /** `.find(s => s.value === v)`: the first entry with that value. */
  function Find(cs: seq<StatusConfig>, v: string): (r: Option<StatusConfig>)
    ensures r.Some? <==> v in Values(cs)
    ensures r.Some? ==> r.value in cs && r.value.value == v
  {
    if cs == [] then None
    else if cs[0].value == v then Some(cs[0])
    else
      var r := Find(cs[1..], v);
      assert Values(cs) == [cs[0].value] + Values(cs[1..]);
      r
  }

  /** `Object.fromEntries(cs.map(s => [s.value, s]))`: a later entry overwrites an earlier one of the same value. */
  function FromEntries(cs: seq<StatusConfig>): (m: map<string, StatusConfig>)
    ensures forall v :: v in m <==> v in Values(cs)
  {
    if cs == [] then map[]
    else
      var init := cs[..|cs| - 1];
      var last := cs[|cs| - 1];
      ValuesSplit(cs);
      FromEntries(init)[last.value := last]
  }

  predicate Distinct(vs: seq<string>) {
    forall i, j :: 0 <= i < j < |vs| ==> vs[i] != vs[j]
  }

  lemma {:induction false} ValuesSplit(cs: seq<StatusConfig>)
    requires cs != []
    ensures Values(cs) == Values(cs[..|cs| - 1]) + [cs[|cs| - 1].value]
  {
    var init := cs[..|cs| - 1];
    if |cs| == 1 {
      assert init == [];
    } else {
      ValuesSplit(cs[1..]);
      assert cs[1..][..|cs| - 2] == init[1..];
      assert Values(init) == [init[0].value] + Values(init[1..]);
    }
  }

  lemma DistinctInit(vs: seq<string>)
    requires vs != [] && Distinct(vs)
    ensures Distinct(vs[..|vs| - 1]) && vs[|vs| - 1] !in vs[..|vs| - 1]
  {
  }

  /** With distinct values the map and `find` agree on every value. */
  lemma {:induction false} MapAgreesWithFind(cs: seq<StatusConfig>, v: string)
    requires Distinct(Values(cs)) && v in Values(cs)
    ensures FromEntries(cs)[v] == Find(cs, v).value
  {
    var init := cs[..|cs| - 1];
    var last := cs[|cs| - 1];
    assert cs == init + [last];
    ValuesSplit(cs);
    DistinctInit(Values(cs));
    assert Values(cs)[..|cs| - 1] == Values(init);
    FindSnoc(init, last, v);
    if v != last.value {
      MapAgreesWithFind(init, v);
    }
  }

  lemma {:induction false} FindSnoc(cs: seq<StatusConfig>, c: StatusConfig, v: string)
    ensures Find(cs + [c], v) == if v in Values(cs) then Find(cs, v) else if c.value == v then Some(c) else None
  {
    if cs == [] {
      assert [] + [c] == [c];
    } else {
      assert (cs + [c])[1..] == cs[1..] + [c];
      assert Values(cs) == [cs[0].value] + Values(cs[1..]);
      FindSnoc(cs[1..], c, v);
    }
  }

  /** `LEAD_STATUS_VALUES`, exactly and in this order. */
  function LeadStatusValues(): (vs: seq<string>)
    ensures vs == ["new", "contacted", "qualified", "proposal", "won", "unqualified", "lost"]
  {
    Values(LEAD_STATUSES)
  }

  /** `LEAD_STATUS_OPTIONS`: the value and label of each status, in table order. */
  function LeadStatusOptions(): (os: seq<(string, string)>)
    ensures |os| == 7
    ensures forall i :: 0 <= i < 7 ==> os[i].0 == LeadStatusValues()[i] && os[i].1 == LEAD_STATUSES[i].title
  {
    Options(LEAD_STATUSES)
  }

  /** The seven values are pairwise distinct. */
  lemma StatusValuesDistinct()
    ensures Distinct(LeadStatusValues())
  {
    LiteralValuesDistinct();
  }

  lemma LiteralValuesDistinct()
    ensures Distinct(["new", "contacted", "qualified", "proposal", "won", "unqualified", "lost"])
  {
  }

  /** `isValidLeadStatus(status)`: case-sensitive membership. */
  predicate IsValidLeadStatus(status: string) {
    status in LeadStatusValues()
  }

  /** Matching is case-sensitive: a capitalised value is not a status. */
  lemma CaseSensitive()
    ensures IsValidLeadStatus("won") && !IsValidLeadStatus("Won")
  {
    LiteralMembership();
  }

  lemma LiteralMembership()
    ensures "won" in ["new", "contacted", "qualified", "proposal", "won", "unqualified", "lost"]
    ensures "Won" !in ["new", "contacted", "qualified", "proposal", "won", "unqualified", "lost"]
    ensures "" !in ["new", "contacted", "qualified", "proposal", "won", "unqualified", "lost"]
  {
    assert "Won"[0] != "won"[0];
  }

  /** The empty string is not a status. */
  lemma EmptyNotStatus()
    ensures !IsValidLeadStatus("")
  {
    LiteralMembership();
  }

  /** `getLeadStatusConfig(status)`. */
  function GetLeadStatusConfig(status: string): (r: Option<StatusConfig>)
    ensures r.Some? <==> IsValidLeadStatus(status)
    ensures r.Some? ==> r.value in LEAD_STATUSES && r.value.value == status
  {
    Find(LEAD_STATUSES, status)
  }

  /** `LEAD_STATUS_MAP`. */
  function LeadStatusMap(): (m: map<string, StatusConfig>)
    ensures forall v :: v in m <==> IsValidLeadStatus(v)
  {
    FromEntries(LEAD_STATUSES)
  }

  /** For a valid status, the map and the lookup both give the entry whose value it is. */
  lemma MapMatchesConfig(status: string)
    requires IsValidLeadStatus(status)
    ensures LeadStatusMap()[status] == GetLeadStatusConfig(status).value
    ensures LeadStatusMap()[status].value == status
  {
    StatusValuesDistinct();
    MapAgreesWithFind(LEAD_STATUSES, status);
  }
}
