/** The small per-Job index that LS keeps beside each Job document, and the two ways of
    finding the Jobs that refer to a D-Bus Interface or Method. */
module JobIndex {
  import opened Options

  /** The name of a Job, an Interface, a Method or a call. */
  datatype Name = Name(text: string)

  /** A call lists its tags either in output selections or, in the older form, directly. */
  datatype TagSource = Selections(groups: seq<seq<string>>) | Direct(tags: seq<string>)

  datatype MethodCall = MethodCall(id: Name, interfaceId: Name, methodId: Name, source: TagSource)

  /** Everything of a Job's config apart from its calls; `database` and `log` stand for the
      fields the index copies. */
  datatype Settings = Settings(profileId: string, intervalMs: nat, useAbsoluteTimer: bool,
                               database: seq<string>, execution: seq<string>, logLevel: string)

  datatype Config = Config(calls: seq<MethodCall>, settings: Settings)

  datatype Document = Document(name: Name, revision: nat, config: Config)

  datatype Reference = Reference(interfaceId: Name, methodId: Name, callId: Name)

  datatype Index = Index(name: Name, revision: nat, settings: Settings, methodCallCount: nat, tagCount: nat,
                         interfaceIds: set<Name>, methodReferences: seq<Reference>)

  function Flatten(groups: seq<seq<string>>): seq<string> {
    if groups == [] then [] else groups[0] + Flatten(groups[1..])
  }

  function TagsForCall(call: MethodCall): seq<string> {
    match call.source case Selections(groups) => Flatten(groups) case Direct(tags) => tags
  }

  function TagTotal(calls: seq<MethodCall>): nat {
    if calls == [] then 0 else |TagsForCall(calls[0])| + TagTotal(calls[1..])
  }

  function InterfacesOf(calls: seq<MethodCall>): set<Name> {
    set c <- calls :: c.interfaceId
  }

  function References(calls: seq<MethodCall>): (r: seq<Reference>)
    ensures |r| == |calls|
    ensures forall k :: 0 <= k < |calls| ==> r[k] == Reference(calls[k].interfaceId, calls[k].methodId, calls[k].id)
  {
    if calls == [] then []
    else [Reference(calls[0].interfaceId, calls[0].methodId, calls[0].id)] + References(calls[1..])
  }

  /** fromDocument; an empty interfaceId is dropped from the list of Interfaces. */
  function FromDocument(doc: Document): Index {
    Index(doc.name, doc.revision, doc.config.settings, |doc.config.calls|, TagTotal(doc.config.calls),
          InterfacesOf(doc.config.calls) - {Name("")}, References(doc.config.calls))
  }

  // ---------------------------------------------------------------- references

  /** One entry of a reference report: the Job, the calls that match and their Methods; or a Job
      whose document is reported as invalid. */
  datatype Usage = Usage(job: Name, calls: seq<Name>, methodIds: seq<Name>, invalid: bool)

  predicate Matches(interfaceId: Name, methodId: Option<Name>, ref: Reference) {
    ref.interfaceId == interfaceId && (methodId.Some? ==> ref.methodId == methodId.value)
  }

  function Filter(interfaceId: Name, methodId: Option<Name>, refs: seq<Reference>): seq<Reference> {
    if refs == [] then []
    else (if Matches(interfaceId, methodId, refs[0]) then [refs[0]] else []) + Filter(interfaceId, methodId, refs[1..])
  }

  function UsageOf(job: Name, refs: seq<Reference>): seq<Usage> {
    if refs == [] then []
    else [Usage(job, CallIds(refs), Distinct(MethodsReferred(refs)), false)]
  }

  /** The elements in order of first occurrence, as `[...new Set(s)]` lists them. */
  function Distinct(s: seq<Name>): seq<Name> {
    if s == [] then []
    else
      var before := Distinct(s[..|s| - 1]);
      if s[|s| - 1] in before then before else before + [s[|s| - 1]]
  }

  function MethodsReferred(refs: seq<Reference>): seq<Name> {
    if refs == [] then [] else [refs[0].methodId] + MethodsReferred(refs[1..])
  }

  function MethodsCalled(calls: seq<MethodCall>): seq<Name> {
    if calls == [] then [] else [calls[0].methodId] + MethodsCalled(calls[1..])
  }

  function CallIds(refs: seq<Reference>): seq<Name> {
    if refs == [] then [] else [refs[0].callId] + CallIds(refs[1..])
  }

  /** find through the index, over the registered names in order. */
  function FindIndexed(names: seq<Name>, index: map<Name, Index>, interfaceId: Name, methodId: Option<Name>): seq<Usage>
    requires forall n <- names :: n in index
  {
    if names == [] then []
    else UsageOf(names[0], Filter(interfaceId, methodId, index[names[0]].methodReferences))
         + FindIndexed(names[1..], index, interfaceId, methodId)
  }

  function MatchingCalls(calls: seq<MethodCall>, interfaceId: Name, methodId: Option<Name>): seq<MethodCall> {
    if calls == [] then []
    else (if calls[0].interfaceId == interfaceId && (methodId.Some? ==> calls[0].methodId == methodId.value)
          then [calls[0]] else [])
         + MatchingCalls(calls[1..], interfaceId, methodId)
  }

  function IdsOf(calls: seq<MethodCall>): seq<Name> {
    if calls == [] then [] else [calls[0].id] + IdsOf(calls[1..])
  }

  /** validCalls: what the scan takes for a valid document. It knows the older form of calls only;
      a call with output selections is none. */
  predicate ScanReads(calls: seq<MethodCall>) {
    calls != [] && (forall c <- calls :: c.source.Direct?)
    && forall i, j :: 0 <= i < j < |calls| ==> calls[i].id != calls[j].id
  }

  /** What the scan makes of one document. */
  function ScanOf(job: Name, calls: seq<MethodCall>, interfaceId: Name, methodId: Option<Name>): seq<Usage> {
    if !ScanReads(calls) then [Usage(job, [], [], true)]
    else
      var matching := MatchingCalls(calls, interfaceId, methodId);
      if matching == [] then [] else [Usage(job, IdsOf(matching), Distinct(MethodsCalled(matching)), false)]
  }

  /** find by scanning the documents themselves. */
  function FindScanned(names: seq<Name>, docs: map<Name, Document>, interfaceId: Name, methodId: Option<Name>)
    : seq<Usage>
    requires forall n <- names :: n in docs
  {
    if names == [] then []
    else ScanOf(names[0], docs[names[0]].config.calls, interfaceId, methodId)
         + FindScanned(names[1..], docs, interfaceId, methodId)
  }

  lemma {:induction false} FilterScans(calls: seq<MethodCall>, interfaceId: Name, methodId: Option<Name>)
    ensures Filter(interfaceId, methodId, References(calls)) == References(MatchingCalls(calls, interfaceId, methodId))
  {
    if calls == [] {
    } else {
      FilterScans(calls[1..], interfaceId, methodId);
      var rest := MatchingCalls(calls[1..], interfaceId, methodId);
      assert [calls[0]] + rest == [calls[0]] + rest && ([calls[0]] + rest)[1..] == rest;
    }
  }

  lemma {:induction false} IdsAgree(calls: seq<MethodCall>)
    ensures CallIds(References(calls)) == IdsOf(calls)
    ensures MethodsReferred(References(calls)) == MethodsCalled(calls)
  {
    if calls == [] {
    } else {
      IdsAgree(calls[1..]);
      assert References(calls)[1..] == References(calls[1..]);
    }
  }

  // ---------------------------------------------------------------- what is reported

  predicate FirstPlace(s: seq<Name>, x: Name, k: int) {
    0 <= k < |s| && s[k] == x && forall j :: 0 <= j < k ==> s[j] != x
  }

  /** Each element once, in the order of the first occurrences. */
  lemma {:induction false} DistinctIs(s: seq<Name>)
    ensures var r := Distinct(s);
      && (forall i, j :: 0 <= i < j < |r| ==> r[i] != r[j])
      && (forall x :: x in r <==> x in s)
      && (forall i, j, a, b :: 0 <= i < j < |r| && FirstPlace(s, r[i], a) && FirstPlace(s, r[j], b) ==> a < b)
  {
    if s == [] {
    } else {
      var front, last := s[..|s| - 1], s[|s| - 1];
      DistinctIs(front);
      assert s == front + [last];
      var before, r := Distinct(front), Distinct(s);
      forall i, j, a, b | 0 <= i < j < |r| && FirstPlace(s, r[i], a) && FirstPlace(s, r[j], b) ensures a < b {
        assert r[i] == before[i] && before[i] in front;
        EarlierPlace(front, last, before[i], a);
        if j < |before| {
          assert before[j] in front;
          EarlierPlace(front, last, before[j], b);
        }
      }
    }
  }

  lemma EarlierPlace(front: seq<Name>, last: Name, x: Name, k: int)
    requires x in front && FirstPlace(front + [last], x, k)
    ensures FirstPlace(front, x, k)
  {
    var i :| 0 <= i < |front| && front[i] == x;
    assert (front + [last])[i] == x && k <= i;
    assert forall j :: 0 <= j < k ==> (front + [last])[j] == front[j];
  }

  predicate Calls(call: MethodCall, interfaceId: Name, methodId: Option<Name>) {
    call.interfaceId == interfaceId && (methodId.Some? ==> call.methodId == methodId.value)
  }

  function Found(call: MethodCall, interfaceId: Name, methodId: Option<Name>): seq<MethodCall> {
    if Calls(call, interfaceId, methodId) then [call] else []
  }

  lemma MatchingStep(calls: seq<MethodCall>, interfaceId: Name, methodId: Option<Name>)
    ensures MatchingCalls([], interfaceId, methodId) == []
    ensures calls != [] ==> MatchingCalls(calls, interfaceId, methodId)
                            == Found(calls[0], interfaceId, methodId) + MatchingCalls(calls[1..], interfaceId, methodId)
  {
  }

  /** A call is found or left out by itself, and the order stays. */
  lemma MatchingOne(call: MethodCall, interfaceId: Name, methodId: Option<Name>)
    ensures MatchingCalls([call], interfaceId, methodId) == if Calls(call, interfaceId, methodId) then [call] else []
  {
    hide MatchingCalls;
    MatchingStep([call], interfaceId, methodId);
    assert [call][1..] == [];
  }

  lemma {:induction false} MatchingJoins(a: seq<MethodCall>, b: seq<MethodCall>, interfaceId: Name,
                                         methodId: Option<Name>)
    ensures MatchingCalls(a + b, interfaceId, methodId)
            == MatchingCalls(a, interfaceId, methodId) + MatchingCalls(b, interfaceId, methodId)
  {
    hide MatchingCalls, Found;
    MatchingStep(a, interfaceId, methodId);
    if a == [] {
      assert a + b == b;
    } else {
      MatchingStep(a + b, interfaceId, methodId);
      assert (a + b)[1..] == a[1..] + b && (a + b)[0] == a[0];
      MatchingJoins(a[1..], b, interfaceId, methodId);
      Associative(Found(a[0], interfaceId, methodId), MatchingCalls(a[1..], interfaceId, methodId),
                  MatchingCalls(b, interfaceId, methodId));
    }
  }

  lemma Associative(a: seq<MethodCall>, b: seq<MethodCall>, c: seq<MethodCall>)
    ensures a + (b + c) == a + b + c
  {
  }

  /** What the search through the index reports where the index is that of the documents: the Jobs with a
      matching call, each with the ids of all of them and their Methods without repetition. */
  lemma {:induction false} ReportIs(names: seq<Name>, docs: map<Name, Document>, index: map<Name, Index>,
                                    interfaceId: Name, methodId: Option<Name>, u: Usage)
    requires forall n <- names :: n in docs && n in index && index[n] == FromDocument(docs[n])
    ensures u in FindIndexed(names, index, interfaceId, methodId)
            <==> u.job in names
                 && var m := MatchingCalls(docs[u.job].config.calls, interfaceId, methodId);
                    m != [] && u == Usage(u.job, IdsOf(m), Distinct(MethodsCalled(m)), false)
  {
    hide Distinct;
    if names == [] {
    } else {
      ReportIs(names[1..], docs, index, interfaceId, methodId, u);
      assert u.job in names <==> u.job == names[0] || u.job in names[1..];
      var calls := docs[names[0]].config.calls;
      var m := MatchingCalls(calls, interfaceId, methodId);
      FilterScans(calls, interfaceId, methodId);
      IdsAgree(m);
      assert |References(m)| == |m|;
    }
  }

  /** What the index keeps of a document: its head, the number of its calls, each Interface that a call names
      by a text that is not empty, and one reference per call. */
  lemma IndexIs(doc: Document)
    ensures var i, calls := FromDocument(doc), doc.config.calls;
      && i.name == doc.name && i.revision == doc.revision && i.settings == doc.config.settings
      && i.methodCallCount == |i.methodReferences| == |calls|
      && (forall id :: id in i.interfaceIds
                       <==> id.text != "" && exists k :: 0 <= k < |calls| && calls[k].interfaceId == id)
      && (forall k :: 0 <= k < |calls| ==>
            && i.methodReferences[k].interfaceId == calls[k].interfaceId
            && i.methodReferences[k].methodId == calls[k].methodId && i.methodReferences[k].callId == calls[k].id)
  {
    var calls := doc.config.calls;
    forall id ensures id in InterfacesOf(calls) <==> exists k :: 0 <= k < |calls| && calls[k].interfaceId == id {
      if k :| 0 <= k < |calls| && calls[k].interfaceId == id { assert calls[k] in calls; }
    }
  }

  /** The index counts every tag of every call. */
  lemma {:induction false} TagTotalJoins(a: seq<MethodCall>, b: seq<MethodCall>)
    ensures TagTotal(a + b) == TagTotal(a) + TagTotal(b)
    ensures forall call :: TagTotal([call]) == |TagsForCall(call)|
  {
    forall call ensures TagTotal([call]) == |TagsForCall(call)| {
      assert [call][1..] == [];
    }
    if a == [] {
      assert a + b == b;
    } else {
      TagTotalJoins(a[1..], b);
      assert (a + b)[1..] == a[1..] + b;
    }
  }

  /** Where the index of every listed Job is that of its document, both searches report the same if
      and only if the scan can read every document: each has a call, only calls of the older form,
      and no call id twice. Otherwise the scan reports the Job as invalid, for every Interface and
      Method. */
  lemma FindAgrees(names: seq<Name>, docs: map<Name, Document>, index: map<Name, Index>,
                   interfaceId: Name, methodId: Option<Name>)
    requires forall n <- names :: n in docs && n in index && index[n] == FromDocument(docs[n])
    ensures FindIndexed(names, index, interfaceId, methodId) == FindScanned(names, docs, interfaceId, methodId)
            <==> forall n <- names :: ScanReads(docs[n].config.calls)
  {
    if forall n <- names :: ScanReads(docs[n].config.calls) {
      ReadableAgree(names, docs, index, interfaceId, methodId);
    } else {
      var n :| n in names && !ScanReads(docs[n].config.calls);
      UnreadableInvalid(names, docs, interfaceId, methodId, n);
      IndexedValid(names, index, interfaceId, methodId);
    }
  }

  lemma {:induction false} ReadableAgree(names: seq<Name>, docs: map<Name, Document>, index: map<Name, Index>,
                                         interfaceId: Name, methodId: Option<Name>)
    requires forall n <- names :: n in docs && n in index && index[n] == FromDocument(docs[n])
    requires forall n <- names :: ScanReads(docs[n].config.calls)
    ensures FindIndexed(names, index, interfaceId, methodId) == FindScanned(names, docs, interfaceId, methodId)
  {
    if names == [] {
    } else {
      ReadableAgree(names[1..], docs, index, interfaceId, methodId);
      var calls := docs[names[0]].config.calls;
      FilterScans(calls, interfaceId, methodId);
      var matching := MatchingCalls(calls, interfaceId, methodId);
      IdsAgree(matching);
      assert |References(matching)| == |matching|;
    }
  }

  /** A document that the scan cannot read is reported as invalid whatever is searched for. */
  lemma {:induction false} UnreadableInvalid(names: seq<Name>, docs: map<Name, Document>,
                                             interfaceId: Name, methodId: Option<Name>, n: Name)
    requires (forall x <- names :: x in docs) && n in names && !ScanReads(docs[n].config.calls)
    ensures Usage(n, [], [], true) in FindScanned(names, docs, interfaceId, methodId)
  {
    if names[0] == n {
      assert ScanOf(n, docs[n].config.calls, interfaceId, methodId)[0] == Usage(n, [], [], true);
    } else {
      assert names == [names[0]] + names[1..];
      UnreadableInvalid(names[1..], docs, interfaceId, methodId, n);
    }
  }

  /** The index never reports a registered Job as invalid. */
  lemma {:induction false} IndexedValid(names: seq<Name>, index: map<Name, Index>,
                                        interfaceId: Name, methodId: Option<Name>)
    requires forall n <- names :: n in index
    ensures forall u <- FindIndexed(names, index, interfaceId, methodId) :: !u.invalid
  {
    if names == [] {
    } else {
      IndexedValid(names[1..], index, interfaceId, methodId);
    }
  }

  /** A Job with one call, which has an output selection: the index reports it for the Interface
      that it calls and for no other, the scan reports it as invalid for both. */
  lemma FormsDiffer() returns (doc: Document, called: Name, other: Name)
    ensures called != other && |doc.config.calls| == 1 && doc.config.calls[0].interfaceId == called
    ensures var names, docs, index := [doc.name], map[doc.name := doc], map[doc.name := FromDocument(doc)];
      FindIndexed(names, index, called, None)
      == [Usage(doc.name, [doc.config.calls[0].id], [doc.config.calls[0].methodId], false)]
      && FindIndexed(names, index, other, None) == []
      && FindScanned(names, docs, called, None) == [Usage(doc.name, [], [], true)]
      && FindScanned(names, docs, other, None) == [Usage(doc.name, [], [], true)]
  {
    called, other := Name("meter"), Name("valve");
    assert called.text[0] != other.text[0];
    var call := MethodCall(Name("c1"), called, Name("read"), Selections([["tag"]]));
    doc := Document(Name("job-1"), 1, Config([call], Settings("", 1000, false, [], [], "info")));
    IndexedOne(doc, call, called);
    IndexedOne(doc, call, other);
    ScannedOne(doc, call, called);
    ScannedOne(doc, call, other);
  }

  lemma IndexedOne(doc: Document, call: MethodCall, id: Name)
    requires doc.config.calls == [call]
    ensures FindIndexed([doc.name], map[doc.name := FromDocument(doc)], id, None)
            == if call.interfaceId == id then [Usage(doc.name, [call.id], [call.methodId], false)] else []
  {
    var ref := Reference(call.interfaceId, call.methodId, call.id);
    assert References([call]) == [ref] && [ref][1..] == [];
    assert Filter(id, None, [ref]) == if call.interfaceId == id then [ref] else [];
    assert CallIds([ref]) == [call.id] && MethodsReferred([ref]) == [call.methodId];
    assert [call.methodId][..0] == [] && Distinct([call.methodId]) == [call.methodId];
    assert [doc.name][1..] == [];
  }

  lemma ScannedOne(doc: Document, call: MethodCall, id: Name)
    requires doc.config.calls == [call] && call.source.Selections?
    ensures FindScanned([doc.name], map[doc.name := doc], id, None) == [Usage(doc.name, [], [], true)]
  {
    assert call in doc.config.calls && !ScanReads(doc.config.calls);
    assert [doc.name][1..] == [];
  }
}
