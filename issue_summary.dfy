/**
 The issue summary widget (src/IssueWidget.tsx): one pass over the list of
 `{issue, description}` records fills two dictionaries, the number of records
 per issue and the descriptions per issue, and the widget then lists every
 issue once with its count and its descriptions.

 The specification side is written as functions over the input list that
 recur on the LAST record, the order in which the widget's loop consumes it.
 */
module IssueSummary {

  /** One input record: the issue text and the free-text description. */
  datatype IssueRecord = IssueRecord(issue: string, description: string)

  /** One entry of the rendered summary list. */
  datatype SummaryItem = SummaryItem(issue: string, count: nat, descriptions: seq<string>)

  function Init(ms: seq<IssueRecord>): seq<IssueRecord>
    requires ms != []
  {
    ms[..|ms| - 1]
  }

  function Last(ms: seq<IssueRecord>): IssueRecord
    requires ms != []
  {
    ms[|ms| - 1]
  }

  // ---------------------------------------------------------------------------
  // Specification: the dictionaries after consuming a prefix of the input
  // ---------------------------------------------------------------------------

  /** `countByIssue` after the loop has consumed `ms`. */
  function CountByIssue(ms: seq<IssueRecord>): map<string, nat>
  {
    if ms == [] then map[]
    else
      var counts, k := CountByIssue(Init(ms)), Last(ms).issue;
      counts[k := (if k in counts then counts[k] else 0) + 1]
  }

  /** `descriptionsByIssue` after the loop has consumed `ms`. */
  function DescriptionsByIssue(ms: seq<IssueRecord>): map<string, seq<string>>
  {
    if ms == [] then map[]
    else
      var descs, k := DescriptionsByIssue(Init(ms)), Last(ms).issue;
      descs[k := (if k in descs then descs[k] else []) + [Last(ms).description]]
  }

  /** The key order of `countByIssue`: an issue is appended the first time it
      is seen, as a JavaScript object records its keys. */
  function IssueKeys(ms: seq<IssueRecord>): seq<string>
  {
    if ms == [] then []
    else if Last(ms).issue in IssueKeys(Init(ms)) then IssueKeys(Init(ms))
    else IssueKeys(Init(ms)) + [Last(ms).issue]
  }

  /** The list the summary shows for issue `k` (none when `k` is no key). */
  function DescriptionsFor(ms: seq<IssueRecord>, k: string): seq<string>
  {
    if k in DescriptionsByIssue(ms) then DescriptionsByIssue(ms)[k] else []
  }

  // Independent descriptions of the same content, used by the lemmas below.

  /** The issues that occur in the input. */
  function IssueSet(ms: seq<IssueRecord>): set<string>
  {
    set i | 0 <= i < |ms| :: ms[i].issue
  }

  /** The issue of every record, in input order. */
  function Issues(ms: seq<IssueRecord>): seq<string>
  {
    seq(|ms|, i requires 0 <= i < |ms| => ms[i].issue)
  }

  /** The indices of the records that carry issue `k`, in increasing order. */
  function Positions(ms: seq<IssueRecord>, k: string): seq<nat>
  {
    if ms == [] then []
    else Positions(Init(ms), k) + (if Last(ms).issue == k then [|ms| - 1] else [])
  }

  /** The descriptions of the records carrying issue `k`, in input order. */
  function FilteredDescriptions(ms: seq<IssueRecord>, k: string): seq<string>
  {
    if ms == [] then []
    else FilteredDescriptions(Init(ms), k) + (if Last(ms).issue == k then [Last(ms).description] else [])
  }

  /** The sum of the counts of the issues in `keys`. */
  function SumCounts(keys: seq<string>, counts: map<string, nat>): nat
  {
    if keys == [] then 0
    else (if keys[0] in counts then counts[keys[0]] else 0) + SumCounts(keys[1..], counts)
  }

  predicate Distinct(keys: seq<string>)
  {
    forall i, j :: 0 <= i < j < |keys| ==> keys[i] != keys[j]
  }

  // ---------------------------------------------------------------------------
  // The widget
  // ---------------------------------------------------------------------------

  /** The `forEach` over the markers. `issues` is the key order of
      `countByIssue` (what `Object.keys` yields); a key is added to it the first
      time the loop assigns it. A key is looked up among the dictionary's own
      entries only (see AggregateAsWritten for what a plain `{}` does). */
  method Aggregate(markers: seq<IssueRecord>)
    returns (issues: seq<string>, countByIssue: map<string, nat>, descriptionsByIssue: map<string, seq<string>>)
    ensures issues == IssueKeys(markers)
    ensures countByIssue == CountByIssue(markers)
    ensures descriptionsByIssue == DescriptionsByIssue(markers)
    ensures countByIssue.Keys == descriptionsByIssue.Keys == IssueSet(markers)
    ensures forall k :: k in countByIssue ==> countByIssue[k] == multiset(Issues(markers))[k]
    ensures forall k :: k in descriptionsByIssue ==> descriptionsByIssue[k] == FilteredDescriptions(markers, k)
  {
    issues, countByIssue, descriptionsByIssue := [], map[], map[];
    ghost var done: seq<IssueRecord> := [];
    var i := 0;
    while i < |markers|
      invariant 0 <= i <= |markers| && done == markers[..i]
      invariant issues == IssueKeys(done)
      invariant countByIssue == CountByIssue(done)
      invariant descriptionsByIssue == DescriptionsByIssue(done)
    {
      var issue, description := markers[i].issue, markers[i].description;
      AppendRecord(done, markers[i]);
      if issue !in countByIssue {
        issues := issues + [issue];
      }
      countByIssue := countByIssue[issue := (if issue in countByIssue then countByIssue[issue] else 0) + 1];
      // `descriptionsByIssue[issue] || []` stored back, then `push`: the list
      // held under `issue` grows by one description at its end.
      var list := if issue in descriptionsByIssue then descriptionsByIssue[issue] else [];
      descriptionsByIssue := descriptionsByIssue[issue := list + [description]];
      done := done + [markers[i]];
      i := i + 1;
    }
    assert done == markers;
    SummaryKeys(markers);
    forall k | k in countByIssue
      ensures countByIssue[k] == multiset(Issues(markers))[k]
      ensures descriptionsByIssue[k] == FilteredDescriptions(markers, k)
    {
      CountIsMultiplicity(markers, k);
      DescriptionsForIsFilter(markers, k);
    }
  }

  /** The list of lines 24-33: one item per key of `countByIssue`, in key
      order, with its count and its descriptions. */
  function RenderSummary(issues: seq<string>, countByIssue: map<string, nat>, descriptionsByIssue: map<string, seq<string>>): (items: seq<SummaryItem>)
    requires forall k :: k in issues ==> k in countByIssue && k in descriptionsByIssue
    ensures |items| == |issues|
    ensures forall j :: 0 <= j < |items| ==> items[j].issue == issues[j]
    ensures forall j :: 0 <= j < |items| ==>
      items[j].count == countByIssue[items[j].issue] && items[j].descriptions == descriptionsByIssue[items[j].issue]
  {
    seq(|issues|, j requires 0 <= j < |issues| =>
      SummaryItem(issues[j], countByIssue[issues[j]], descriptionsByIssue[issues[j]]))
  }

  // ---------------------------------------------------------------------------
  // Properties
  // ---------------------------------------------------------------------------

  lemma {:induction false} IssueSetOfAppended(ms: seq<IssueRecord>)
    requires ms != []
    ensures IssueSet(ms) == IssueSet(Init(ms)) + {Last(ms).issue}
  {
    var init := Init(ms);
    forall x | x in IssueSet(ms) ensures x in IssueSet(init) + {Last(ms).issue} {
      var i :| 0 <= i < |ms| && ms[i].issue == x;
      if i < |init| { assert init[i].issue == x; }
    }
    forall x | x in IssueSet(init) ensures x in IssueSet(ms) {
      var i :| 0 <= i < |init| && init[i].issue == x;
      assert ms[i].issue == x;
    }
  }

  /** Both dictionaries have exactly the issues of the input as keys, each
      count is the (positive) length of that issue's description list, and
      only the empty input gives empty dictionaries. */
  lemma {:induction false} SummaryKeys(ms: seq<IssueRecord>)
    ensures CountByIssue(ms).Keys == DescriptionsByIssue(ms).Keys == IssueSet(ms)
    ensures forall k :: k in CountByIssue(ms) ==> CountByIssue(ms)[k] == |DescriptionsByIssue(ms)[k]| > 0
    ensures ms == [] <==> CountByIssue(ms) == map[]
  {
    if ms != [] {
      SummaryKeys(Init(ms));
      IssueSetOfAppended(ms);
      assert Last(ms).issue in CountByIssue(ms);
    }
  }

  /** The key list names every issue of the input exactly once and nothing else. */
  lemma {:induction false} IssueKeysListEachIssueOnce(ms: seq<IssueRecord>)
    ensures Distinct(IssueKeys(ms))
    ensures forall k :: k in IssueKeys(ms) <==> k in IssueSet(ms)
  {
    if ms != [] {
      IssueKeysListEachIssueOnce(Init(ms));
      IssueSetOfAppended(ms);
    }
  }

  /** Adding one record at the end of the input increments only that record's
      count, appends its description only to that issue's list, and adds the
      issue to the key list only when it is new. */
  lemma {:induction false} AppendRecord(ms: seq<IssueRecord>, m: IssueRecord)
    ensures CountByIssue(ms + [m]) ==
      CountByIssue(ms)[m.issue := (if m.issue in CountByIssue(ms) then CountByIssue(ms)[m.issue] else 0) + 1]
    ensures DescriptionsByIssue(ms + [m]) ==
      DescriptionsByIssue(ms)[m.issue := DescriptionsFor(ms, m.issue) + [m.description]]
    ensures IssueKeys(ms + [m]) ==
      if m.issue in CountByIssue(ms) then IssueKeys(ms) else IssueKeys(ms) + [m.issue]
  {
    assert Init(ms + [m]) == ms;
    SummaryKeys(ms);
    IssueKeysListEachIssueOnce(ms);
  }

  /** The count of an issue is its multiplicity among the input's issues;
      an issue that is no key does not occur. */
  lemma {:induction false} CountIsMultiplicity(ms: seq<IssueRecord>, k: string)
    ensures k in CountByIssue(ms) ==> CountByIssue(ms)[k] == multiset(Issues(ms))[k]
    ensures k !in CountByIssue(ms) ==> multiset(Issues(ms))[k] == 0
  {
    if ms != [] {
      CountIsMultiplicity(Init(ms), k);
      assert Issues(ms) == Issues(Init(ms)) + [Last(ms).issue];
    }
  }

  /** The descriptions shown for an issue, built directly from the input. */
  lemma {:induction false} DescriptionsForIsFilter(ms: seq<IssueRecord>, k: string)
    ensures DescriptionsFor(ms, k) == FilteredDescriptions(ms, k)
  {
    if ms != [] {
      DescriptionsForIsFilter(Init(ms), k);
    }
  }

  /** The descriptions shown for an issue are those of the records carrying
      it, in input order: `Positions` is exactly the increasing list of those
      records' indices, and the description list follows it. */
  lemma {:induction false} DescriptionsInInputOrder(ms: seq<IssueRecord>, k: string)
    ensures |Positions(ms, k)| == |DescriptionsFor(ms, k)|
    ensures forall j :: 0 <= j < |Positions(ms, k)| ==>
      Positions(ms, k)[j] < |ms| && ms[Positions(ms, k)[j]].issue == k
      && DescriptionsFor(ms, k)[j] == ms[Positions(ms, k)[j]].description
    ensures forall j, j' :: 0 <= j < j' < |Positions(ms, k)| ==> Positions(ms, k)[j] < Positions(ms, k)[j']
    ensures forall i :: 0 <= i < |ms| && ms[i].issue == k ==> i in Positions(ms, k)
  {
    DescriptionsForIsFilter(ms, k);
    PositionsSelectDescriptions(ms, k);
  }

  lemma {:induction false} PositionsSelectDescriptions(ms: seq<IssueRecord>, k: string)
    ensures |Positions(ms, k)| == |FilteredDescriptions(ms, k)|
    ensures forall j :: 0 <= j < |Positions(ms, k)| ==>
      Positions(ms, k)[j] < |ms| && ms[Positions(ms, k)[j]].issue == k
      && FilteredDescriptions(ms, k)[j] == ms[Positions(ms, k)[j]].description
    ensures forall j, j' :: 0 <= j < j' < |Positions(ms, k)| ==> Positions(ms, k)[j] < Positions(ms, k)[j']
    ensures forall i :: 0 <= i < |ms| && ms[i].issue == k ==> i in Positions(ms, k)
  {
    if ms != [] {
      var init, last := Init(ms), Last(ms);
      PositionsSelectDescriptions(init, k);
      var p, p0, d, d0 := Positions(ms, k), Positions(init, k), FilteredDescriptions(ms, k), FilteredDescriptions(init, k);
      assert d == d0 + (if last.issue == k then [last.description] else []);
      assert p == p0 + (if last.issue == k then [|ms| - 1] else []);
      forall j | 0 <= j < |p|
        ensures p[j] < |ms| && ms[p[j]].issue == k && d[j] == ms[p[j]].description
      {
        if j < |p0| { assert p[j] == p0[j] && d[j] == d0[j] && ms[p[j]] == init[p0[j]]; }
      }
      forall i | 0 <= i < |ms| && ms[i].issue == k
        ensures i in p
      {
        if i < |init| { assert init[i] == ms[i]; }
      }
    }
  }

  lemma {:induction false} SumCountsOfAppendedKey(keys: seq<string>, x: string, counts: map<string, nat>)
    ensures SumCounts(keys + [x], counts) == SumCounts(keys, counts) + (if x in counts then counts[x] else 0)
  {
    if keys != [] {
      assert (keys + [x])[1..] == keys[1..] + [x];
      SumCountsOfAppendedKey(keys[1..], x, counts);
    }
  }

  lemma {:induction false} SumCountsOfIncrement(keys: seq<string>, counts: map<string, nat>, x: string)
    requires Distinct(keys)
    ensures SumCounts(keys, counts[x := (if x in counts then counts[x] else 0) + 1])
         == SumCounts(keys, counts) + (if x in keys then 1 else 0)
  {
    if keys != [] {
      SumCountsOfIncrement(keys[1..], counts, x);
      assert x in keys <==> x == keys[0] || x in keys[1..];
    }
  }

  /** The counts of the listed issues add up to the number of input records. */
  lemma {:induction false} CountsSumToLength(ms: seq<IssueRecord>)
    ensures SumCounts(IssueKeys(ms), CountByIssue(ms)) == |ms|
  {
    if ms != [] {
      var init, k := Init(ms), Last(ms).issue;
      CountsSumToLength(init);
      IssueKeysListEachIssueOnce(init);
      SummaryKeys(init);
      SumCountsOfIncrement(IssueKeys(init), CountByIssue(init), k);
      if k !in IssueKeys(init) {
        SumCountsOfAppendedKey(IssueKeys(init), k, CountByIssue(ms));
      }
    }
  }

  /** The rendered summary lists each issue of the input exactly once, no
      other issue, and for each its count and its descriptions. */
  lemma {:induction false} SummaryListsEachIssueOnce(ms: seq<IssueRecord>)
    ensures forall k :: k in IssueKeys(ms) ==> k in CountByIssue(ms) && k in DescriptionsByIssue(ms)
    ensures var items := RenderSummary(IssueKeys(ms), CountByIssue(ms), DescriptionsByIssue(ms));
      && |items| == |IssueSet(ms)|
      && (forall k :: k in IssueSet(ms) ==> exists j :: 0 <= j < |items| && items[j].issue == k)
      && (forall j, j' :: 0 <= j < j' < |items| ==> items[j].issue != items[j'].issue)
      && (forall j :: 0 <= j < |items| ==>
            && items[j].issue in IssueSet(ms)
            && items[j].count == |items[j].descriptions|
            && items[j].descriptions == DescriptionsFor(ms, items[j].issue))
  {
    IssueKeysListEachIssueOnce(ms);
    SummaryKeys(ms);
    RenderedItems(IssueKeys(ms), CountByIssue(ms), DescriptionsByIssue(ms));
    KeysCardinality(ms);
  }

  lemma {:induction false} KeysCardinality(ms: seq<IssueRecord>)
    ensures |IssueKeys(ms)| == |IssueSet(ms)|
  {
    IssueKeysListEachIssueOnce(ms);
    DistinctCardinality(IssueKeys(ms));
    assert IssueSet(ms) == set k | k in IssueKeys(ms);
  }

  lemma {:induction false} RenderedItems(keys: seq<string>, counts: map<string, nat>, descs: map<string, seq<string>>)
    requires Distinct(keys)
    requires forall k :: k in keys ==> k in counts && k in descs
    ensures var items := RenderSummary(keys, counts, descs);
      && |items| == |set k | k in keys|
      && (forall k :: k in keys ==> exists j :: 0 <= j < |items| && items[j].issue == k)
      && (forall j, j' :: 0 <= j < j' < |items| ==> items[j].issue != items[j'].issue)
      && (forall j :: 0 <= j < |items| ==>
            items[j].issue in keys && items[j].count == counts[items[j].issue] && items[j].descriptions == descs[items[j].issue])
  {
    var items := RenderSummary(keys, counts, descs);
    assert forall j :: 0 <= j < |items| ==> items[j].issue == keys[j];
    DistinctCardinality(keys);
    forall k | k in keys ensures exists j :: 0 <= j < |items| && items[j].issue == k {
      var j :| 0 <= j < |keys| && keys[j] == k;
      assert items[j].issue == k;
    }
  }

  lemma {:induction false} DistinctCardinality(keys: seq<string>)
    requires Distinct(keys)
    ensures |set k | k in keys| == |keys|
  {
    if keys != [] {
      var rest := keys[1..];
      DistinctCardinality(rest);
      assert (set k | k in keys) == (set k | k in rest) + {keys[0]};
      assert keys[0] !in rest;
    }
  }

  // ---------------------------------------------------------------------------
  // The dictionaries as written: plain `{}` objects
  // ---------------------------------------------------------------------------

  /** Property names every plain JavaScript object inherits from
      `Object.prototype`. Looking one of them up in `{}` finds a function (or,
      for `__proto__`, the prototype object), never `undefined`. */
  const InheritedNames: set<string> := {
    "constructor", "hasOwnProperty", "isPrototypeOf", "propertyIsEnumerable",
    "toLocaleString", "toString", "valueOf", "__proto__",
    "__defineGetter__", "__defineSetter__", "__lookupGetter__", "__lookupSetter__"
  }

  /** What the loop ends with: a thrown TypeError, or the three results. */
  datatype Outcome =
    | Threw
    | Completed(issues: seq<string>, countByIssue: map<string, nat>, descriptionsByIssue: map<string, seq<string>>)

  /** The loop of lines 13-18 on plain objects. For an issue that is not an
      own key but an inherited name, `descriptionsByIssue[issue] || []` keeps
      the inherited value, which has no `push`, so the call throws. */
  function AggregateAsWritten(ms: seq<IssueRecord>): (r: Outcome)
    ensures r.Threw? <==> exists i :: 0 <= i < |ms| && ms[i].issue in InheritedNames
    ensures r.Completed? ==> r.countByIssue.Keys == r.descriptionsByIssue.Keys
    ensures r.Completed? ==> forall k :: k in r.descriptionsByIssue ==> k !in InheritedNames
  {
    if ms == [] then Completed([], map[], map[])
    else
      assert forall i :: 0 <= i < |ms| - 1 ==> Init(ms)[i] == ms[i];
      match AggregateAsWritten(Init(ms))
      case Threw => Threw
      case Completed(issues, counts, descs) =>
        var r := Last(ms);
        if r.issue !in descs && r.issue in InheritedNames then Threw
        else
          Completed(
            if r.issue in counts then issues else issues + [r.issue],
            counts[r.issue := (if r.issue in counts then counts[r.issue] else 0) + 1],
            descs[r.issue := (if r.issue in descs then descs[r.issue] else []) + [r.description]])
  }

  /** The widget as written throws on a summary with an issue named
      "toString", where the own-key dictionaries count it once. */
  lemma {:induction false} AsWrittenThrowsOnInheritedName()
    ensures AggregateAsWritten([IssueRecord("toString", "broken lamp")]) == Threw
    ensures CountByIssue([IssueRecord("toString", "broken lamp")]) == map["toString" := 1]
  {
    var ms := [IssueRecord("toString", "broken lamp")];
    assert Init(ms) == [];
  }

  /** The loop as written agrees with the own-key dictionaries exactly when no
      input issue is an inherited name, and throws otherwise. */
  lemma {:induction false} AsWrittenCharacterised(ms: seq<IssueRecord>)
    ensures AggregateAsWritten(ms) ==
      if IssueSet(ms) * InheritedNames == {} then Completed(IssueKeys(ms), CountByIssue(ms), DescriptionsByIssue(ms))
      else Threw
  {
    if ms != [] {
      var init, r := Init(ms), Last(ms);
      AsWrittenCharacterised(init);
      IssueSetOfAppended(ms);
      if IssueSet(init) * InheritedNames != {} {
        var x :| x in IssueSet(init) * InheritedNames;
        assert x in IssueSet(ms) * InheritedNames;
      } else {
        SummaryKeys(init);
        IssueKeysListEachIssueOnce(init);
        if r.issue in InheritedNames {
          assert r.issue !in IssueSet(init) by {
            assert forall x :: x in IssueSet(init) && x in InheritedNames ==> x in IssueSet(init) * InheritedNames;
          }
          assert r.issue !in DescriptionsByIssue(init);
          assert r.issue in IssueSet(ms) * InheritedNames;
        } else {
          assert IssueSet(ms) * InheritedNames == {};
        }
      }
    }
  }
}
