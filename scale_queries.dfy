/** The scale queries of database.js: getScales, getScaleGroups,
    getScaleAlterations, getScaleAppendments, getScaleDeductions,
    getScaleRotations and getScalesFromUserString. */
module ScaleQueries {
  import opened Outcomes
  import opened Ordering
  import opened Alphabet
  import opened Validation
  import opened Corpus
  import opened Shapes
  import opened Assembly

  /** A query's hits rebuilt by getScales' loop, which rethrows the first
      rejection; a failure before the store answered is passed on unchanged. */
  function RebuiltOrThrow(hits: Outcome<seq<ScaleHit>>, p: Parsers): (r: Outcome<seq<Scale>>)
    ensures hits.Null? ==> r.Null?
    ensures hits.Thrown? ==> r == Thrown(hits.error)
    ensures r.Done? ==> hits.Done? && |r.value| == |hits.value|
    ensures r.Done? ==> forall i | 0 <= i < |r.value| ::
      r.value[i].groupId == hits.value[i].row.groupId && r.value[i].groupName == hits.value[i].groupName
  {
    var found :- hits;
    ScalesOrThrow(found, p)
  }

  /** A query's hits rebuilt by the loop of the other scale queries, which
      skips every hit the library rejects and keeps the hits' order. */
  function RebuiltKeepingGood(hits: Outcome<seq<ScaleHit>>, p: Parsers): (r: Outcome<seq<Scale>>)
    ensures hits.Null? ==> r.Null?
    ensures hits.Thrown? ==> r == Thrown(hits.error)
    ensures r.Done? ==> hits.Done? && |r.value| <= |hits.value|
    ensures r.Done? ==> Map(r.value, Built) == Filter(Attempts(hits.value, p), Accepted)
  {
    var found :- hits;
    KeptInHitOrder(found, p);
    Done(ScalesKeepingGood(found, p))
  }

  method RunScaleQueryRethrowing(hits: Outcome<seq<ScaleHit>>, p: Parsers) returns (r: Outcome<seq<Scale>>)
    ensures r == RebuiltOrThrow(hits, p)
  {
    if hits.Done? {
      r := AssembleScalesRethrowing(hits.value, p);
    } else {
      r := hits.PropagateFailure();
    }
  }

  method RunScaleQueryDropping(hits: Outcome<seq<ScaleHit>>, p: Parsers) returns (r: Outcome<seq<Scale>>)
    ensures r == RebuiltKeepingGood(hits, p)
  {
    if hits.Done? {
      var kept := AssembleScalesDropping(hits.value, p);
      r := Done(kept);
    } else {
      r := hits.PropagateFailure();
    }
  }

  /** The note list a hit carries reads back as the scale's notes, ascending
      from its root and then ascending below it; it starts on the root when
      the root is one of the notes. */
  lemma HitNotesFromRoot(groups: map<int, string>, row: ScaleRow)
    requires row.notes != {}
    ensures NoteList(Hit(groups, row)) == NamesOf(RotatedFrom(row.notes, row.root))
    ensures forall n :: n in NoteList(Hit(groups, row)) <==> exists q | q in row.notes :: n == Name(q)
    ensures row.root in row.notes ==> NoteList(Hit(groups, row))[0] == Name(row.root)
  {
    GroupConcatRoundTrip(row.notes, row.root);
    RotatedFromFacts(row.notes, row.root);
    var ps := RotatedFrom(row.notes, row.root);
    var ns := NamesOf(ps);
    NamesOfFacts(ps);
    forall n ensures n in ns <==> exists q | q in row.notes :: n == Name(q) {
      if n in ns {
        var i :| 0 <= i < |ns| && ns[i] == n;
        assert ps[i] in ps;
      }
      if exists q | q in row.notes :: n == Name(q) {
        var q :| q in row.notes && n == Name(q);
        var i :| 0 <= i < |ps| && ps[i] == q;
        assert ns[i] == n;
      }
    }
  }

  // ---------------------------------------------------------------- getScales

  /** getScales' hits: the scales at the root in the requested group that
      pass the limiter, in storage order. */
  function ScaleRows(store: Store, limiter: LookupArg, root: Option<string>, groupId: IdArg): (r: Outcome<seq<ScaleHit>>)
    ensures RootVerdict(root).Thrown? ==> r == Thrown(RootVerdict(root).error)
    ensures RootVerdict(root).Done? && groupId.NotInteger? ==> r == Thrown(InvalidGroupId)
    ensures RootVerdict(root).Done? && groupId.IntegerId? && LimiterList(limiter).Thrown? ==>
      r == Thrown(LimiterList(limiter).error)
    ensures r.Null? <==> RootVerdict(root).Done? && groupId.IntegerId? && LimiterList(limiter).Done?
                         && (!store.reachable || LimiterList(limiter).value == Some([]))
    ensures r.Done? ==> groupId.IntegerId? && forall h :: h in r.value <==>
      && h.row in store.scales
      && h.row.notes != {}
      && root == Some(Name(h.row.root))
      && h.row.groupId == groupId.id && h.row.groupId in store.groups
      && LimiterAccepts(limiter, h.row.notes)
      && h == Hit(store.groups, h.row)
  {
    var rootOk :- RootVerdict(root);
    var id :- GroupIdVerdict(groupId);
    var lim :- LimiterList(limiter);
    GroupSelect(store, root, id, lim)
  }

  function GroupSelect(store: Store, root: Option<string>, id: int, lim: Option<seq<string>>): (r: Outcome<seq<ScaleHit>>)
    ensures !r.Thrown?
    ensures r.Null? <==> !store.reachable || lim == Some([])
    ensures r.Done? ==> forall h :: h in r.value <==>
      && h.row in store.scales
      && h.row.notes != {}
      && root == Some(Name(h.row.root))
      && h.row.groupId == id && h.row.groupId in store.groups
      && (lim.Some? ==> LimiterOk(h.row.notes, lim.value))
      && h == Hit(store.groups, h.row)
  {
    var c := ScaleCriteria(Common(RootIs(root), AnyCount, lim), Some(id), AnyName);
    assert forall row :: ScaleMatches(c, store.groups, row) <==>
      && row.notes != {} && root == Some(Name(row.root))
      && row.groupId == id && row.groupId in store.groups
      && (lim.Some? ==> LimiterOk(row.notes, lim.value));
    SelectScales(store, c, StorageOrder)
  }

  /** Every scale getScales returns belongs to the requested group and carries
      that group's name. */
  lemma ScalesOfRequestedGroup(store: Store, p: Parsers, limiter: LookupArg, root: Option<string>, groupId: IdArg)
    requires RebuiltOrThrow(ScaleRows(store, limiter, root, groupId), p).Done?
    ensures forall s | s in RebuiltOrThrow(ScaleRows(store, limiter, root, groupId), p).value ::
      groupId.IntegerId? && s.groupId == groupId.id && groupId.id in store.groups && s.groupName == store.groups[groupId.id]
  {
    var hits := ScaleRows(store, limiter, root, groupId).value;
    var scales := RebuiltOrThrow(ScaleRows(store, limiter, root, groupId), p).value;
    forall s | s in scales
      ensures groupId.IntegerId? && s.groupId == groupId.id && groupId.id in store.groups && s.groupName == store.groups[groupId.id]
    {
      var i :| 0 <= i < |scales| && scales[i] == s;
      assert hits[i] in hits;
    }
  }

  method GetScales(store: Store, p: Parsers, limiter: LookupArg, root: Option<string>, groupId: IdArg)
    returns (r: Outcome<seq<Scale>>)
    ensures r == RebuiltOrThrow(ScaleRows(store, limiter, root, groupId), p)
  {
    r := RunScaleQueryRethrowing(ScaleRows(store, limiter, root, groupId), p);
  }

  // ----------------------------------------------------------- getScaleGroups

  /** One row of getScaleGroups: a group's id and name. */
  datatype ScaleGroup = ScaleGroup(id: int, name: string)

  function GroupOf(groups: map<int, string>, id: int): ScaleGroup {
    ScaleGroup(id, if id in groups then groups[id] else "")
  }

  /** `SELECT DISTINCT group_id, sg.name ... ORDER BY group_id ASC` over the
      matching hits. */
  function GroupsOf(hits: seq<ScaleHit>, groups: map<int, string>): (r: seq<ScaleGroup>)
    ensures forall i, j | 0 <= i < j < |r| :: r[i].id < r[j].id
  {
    var ids := Squeeze(SortBy(Map(hits, (h: ScaleHit) => h.row.groupId), IntKey));
    Map(ids, id => GroupOf(groups, id))
  }

  lemma GroupsOfMembership(hits: seq<ScaleHit>, groups: map<int, string>, g: ScaleGroup)
    ensures g in GroupsOf(hits, groups) <==> g == GroupOf(groups, g.id) && exists h | h in hits :: h.row.groupId == g.id
  {
    var raw := Map(hits, (h: ScaleHit) => h.row.groupId);
    var sorted := SortBy(raw, IntKey);
    var ids := Squeeze(sorted);
    var r := GroupsOf(hits, groups);
    assert r == Map(ids, id => GroupOf(groups, id));
    SortByMembership(raw, IntKey, g.id);
    if g in r {
      var i :| 0 <= i < |r| && r[i] == g;
      assert ids[i] == g.id && g.id in ids;
      var k :| 0 <= k < |raw| && raw[k] == g.id;
      assert hits[k] in hits;
    }
    if g == GroupOf(groups, g.id) && exists h | h in hits :: h.row.groupId == g.id {
      var h :| h in hits && h.row.groupId == g.id;
      var k :| 0 <= k < |hits| && hits[k] == h;
      assert raw[k] == g.id;
      assert g.id in ids;
      var i :| 0 <= i < |ids| && ids[i] == g.id;
      assert r[i] == g;
    }
  }

  /** getScaleGroups: the groups having a scale at the root with as many notes
      as the scale type names that passes the limiter, each once, by
      ascending id. */
  function ScaleGroupRows(store: Store, limiter: LookupArg, root: Option<string>, scaleType: string): (r: Outcome<seq<ScaleGroup>>)
    ensures RootVerdict(root).Thrown? ==> r == Thrown(RootVerdict(root).error)
    ensures RootVerdict(root).Done? && ScaleLength(scaleType).Thrown? ==> r == Thrown(InvalidScaleLength)
    ensures RootVerdict(root).Done? && ScaleLength(scaleType).Done? && LimiterList(limiter).Thrown? ==>
      r == Thrown(LimiterList(limiter).error)
    ensures r.Null? <==> RootVerdict(root).Done? && ScaleLength(scaleType).Done? && LimiterList(limiter).Done?
                         && (!store.reachable || LimiterList(limiter).value == Some([]))
    ensures r.Done? ==> forall i, j | 0 <= i < j < |r.value| :: r.value[i].id < r.value[j].id
    ensures r.Done? ==> ScaleLength(scaleType).Done? && forall g :: g in r.value <==>
      && g.id in store.groups && g.name == store.groups[g.id]
      && exists row :: ScaleOfLength(store, root, ScaleLength(scaleType).value, LimiterList(limiter).value, g.id, row)
  {
    var rootOk :- RootVerdict(root);
    var len :- ScaleLength(scaleType);
    var lim :- LimiterList(limiter);
    GroupsAtLength(store, root, len, lim)
  }

  /** A stored scale of group id at the root with len notes that passes the limiter. */
  predicate ScaleOfLength(store: Store, root: Option<string>, len: nat, lim: Option<seq<string>>, id: int, row: ScaleRow) {
    && row in store.scales
    && row.groupId == id
    && row.notes != {}
    && root == Some(Name(row.root))
    && |row.notes| == len
    && (lim.Some? ==> LimiterOk(row.notes, lim.value))
  }

  function LengthCriteria(root: Option<string>, len: nat, lim: Option<seq<string>>): ScaleCriteria {
    ScaleCriteria(Common(RootIs(root), SizeIs(len), lim), None, AnyName)
  }

  function GroupsAtLength(store: Store, root: Option<string>, len: nat, lim: Option<seq<string>>): (r: Outcome<seq<ScaleGroup>>)
    ensures !r.Thrown?
    ensures r.Null? <==> !store.reachable || lim == Some([])
    ensures r.Done? ==> forall i, j | 0 <= i < j < |r.value| :: r.value[i].id < r.value[j].id
    ensures r.Done? ==> forall g :: g in r.value <==>
      && g.id in store.groups && g.name == store.groups[g.id]
      && exists row :: ScaleOfLength(store, root, len, lim, g.id, row)
  {
    var hits :- SelectScales(store, LengthCriteria(root, len, lim), StorageOrder);
    LengthGroups(store, root, len, lim, hits);
    Done(GroupsOf(hits, store.groups))
  }

  lemma LengthGroups(store: Store, root: Option<string>, len: nat, lim: Option<seq<string>>, hits: seq<ScaleHit>)
    requires forall h :: h in hits <==>
      h.row in store.scales && ScaleMatches(LengthCriteria(root, len, lim), store.groups, h.row) && h == Hit(store.groups, h.row)
    ensures forall g :: g in GroupsOf(hits, store.groups) <==>
      && g.id in store.groups && g.name == store.groups[g.id]
      && exists row :: ScaleOfLength(store, root, len, lim, g.id, row)
  {
    var c := LengthCriteria(root, len, lim);
    forall g ensures g in GroupsOf(hits, store.groups) <==>
      && g.id in store.groups && g.name == store.groups[g.id]
      && exists row :: ScaleOfLength(store, root, len, lim, g.id, row)
    {
      GroupsOfMembership(hits, store.groups, g);
      if g in GroupsOf(hits, store.groups) {
        var h :| h in hits && h.row.groupId == g.id;
        assert ScaleOfLength(store, root, len, lim, g.id, h.row);
      }
      if g.id in store.groups && exists row :: ScaleOfLength(store, root, len, lim, g.id, row) {
        var row :| ScaleOfLength(store, root, len, lim, g.id, row);
        assert ScaleMatches(c, store.groups, row);
        assert Hit(store.groups, row) in hits;
      }
    }
  }

  // ----------------------------------- getScaleAlterations / Appendments / Deductions

  /** The hits of a query that compares every stored scale with a base list b
      of n notes: `COUNT(note) = n + sizeShift AND COUNT(note IN b) = n + hitShift`,
      ordered by whether the root is at or above b[0], then by root. */
  function NearbyScaleRows(store: Store, base: LookupArg, limiter: LookupArg, sizeShift: int, hitShift: int): (r: Outcome<seq<ScaleHit>>)
    ensures LookupList(base).Thrown? ==> r == Thrown(LookupList(base).error)
    ensures LookupList(base).Done? && LimiterList(limiter).Thrown? ==> r == Thrown(LimiterList(limiter).error)
    ensures r.Null? <==> LookupList(base).Done? && LimiterList(limiter).Done?
                         && (!store.reachable || LookupNames(base) == [] || LimiterList(limiter).value == Some([]))
    ensures r.Done? ==> LookupList(base).Done? && LookupNames(base) != []
    ensures r.Done? ==> forall h :: h in r.value <==>
      && h.row in store.scales
      && h.row.groupId in store.groups
      && h.row.notes != {}
      && |h.row.notes| == |LookupNames(base)| + sizeShift
      && Hits(h.row.notes, LookupNames(base)) == |LookupNames(base)| + hitShift
      && LimiterAccepts(limiter, h.row.notes)
      && h == Hit(store.groups, h.row)
    ensures r.Done? ==> SortedBy(r.value, (h: ScaleHit) => ScaleKey(PivotThenRoot(Some(LookupNames(base)[0])), h.row))
  {
    var b :- LookupList(base);
    var lim :- LimiterList(limiter);
    NearbyScaleSelect(store, b, lim, sizeShift, hitShift)
  }

  function NearbyScaleSelect(store: Store, b: seq<string>, lim: Option<seq<string>>, sizeShift: int, hitShift: int): (r: Outcome<seq<ScaleHit>>)
    ensures !r.Thrown?
    ensures r.Null? <==> !store.reachable || b == [] || lim == Some([])
    ensures r.Done? ==> forall h :: h in r.value <==>
      && h.row in store.scales
      && h.row.groupId in store.groups
      && h.row.notes != {}
      && |h.row.notes| == |b| + sizeShift
      && Hits(h.row.notes, b) == |b| + hitShift
      && (lim.Some? ==> LimiterOk(h.row.notes, lim.value))
      && h == Hit(store.groups, h.row)
    ensures r.Done? ==> b != [] && SortedBy(r.value, (h: ScaleHit) => ScaleKey(PivotThenRoot(Some(b[0])), h.row))
  {
    var c := ScaleCriteria(Common(AnyRoot, Counts(|b| + sizeShift, b, |b| + hitShift), lim), None, AnyName);
    if b == [] then SelectScales(store, c, StorageOrder)
    else SelectScales(store, c, PivotThenRoot(Some(b[0])))
  }

  /** getScaleAlterations' hits: as many notes as the base, all but one from it. */
  function ScaleAlterationRows(store: Store, base: LookupArg, limiter: LookupArg): (r: Outcome<seq<ScaleHit>>)
    ensures r.Done? ==> forall h :: h in r.value <==>
      && h.row in store.scales && h.row.groupId in store.groups && h.row.notes != {}
      && |h.row.notes| == |LookupNames(base)| && Hits(h.row.notes, LookupNames(base)) == |LookupNames(base)| - 1
      && LimiterAccepts(limiter, h.row.notes)
      && h == Hit(store.groups, h.row)
  {
    NearbyScaleRows(store, base, limiter, 0, -1)
  }

  /** getScaleAppendments' hits: one note more than the base, all base notes among them. */
  function ScaleAppendmentRows(store: Store, base: LookupArg, limiter: LookupArg): (r: Outcome<seq<ScaleHit>>)
    ensures r.Done? ==> forall h :: h in r.value <==>
      && h.row in store.scales && h.row.groupId in store.groups && h.row.notes != {}
      && |h.row.notes| == |LookupNames(base)| + 1 && Hits(h.row.notes, LookupNames(base)) == |LookupNames(base)|
      && LimiterAccepts(limiter, h.row.notes)
      && h == Hit(store.groups, h.row)
  {
    NearbyScaleRows(store, base, limiter, 1, 0)
  }

  /** getScaleDeductions' hits: one note fewer than the base, all drawn from it. */
  function ScaleDeductionRows(store: Store, base: LookupArg, limiter: LookupArg): (r: Outcome<seq<ScaleHit>>)
    ensures r.Done? ==> forall h :: h in r.value <==>
      && h.row in store.scales && h.row.groupId in store.groups && h.row.notes != {}
      && |h.row.notes| == |LookupNames(base)| - 1 && Hits(h.row.notes, LookupNames(base)) == |LookupNames(base)| - 1
      && LimiterAccepts(limiter, h.row.notes)
      && h == Hit(store.groups, h.row)
  {
    NearbyScaleRows(store, base, limiter, -1, -1)
  }

  /** For a plain base list: an alteration swaps exactly one note, so it is
      never the base scale; an appendment adds exactly one; a deduction drops
      exactly one. */
  lemma NearbyScaleShapes(store: Store, base: LookupArg, limiter: LookupArg, h: ScaleHit)
    requires PlainNoteList(LookupNames(base))
    ensures ScaleAlterationRows(store, base, limiter).Done? && h in ScaleAlterationRows(store, base, limiter).value ==>
      && |h.row.notes - NamedSet(LookupNames(base))| == 1 && |NamedSet(LookupNames(base)) - h.row.notes| == 1
      && h.row.notes != NamedSet(LookupNames(base))
    ensures ScaleAppendmentRows(store, base, limiter).Done? ==>
      (h in ScaleAppendmentRows(store, base, limiter).value <==>
        && h.row in store.scales && h.row.groupId in store.groups && h.row.notes != {}
        && LimiterAccepts(limiter, h.row.notes) && h == Hit(store.groups, h.row)
        && NamedSet(LookupNames(base)) < h.row.notes && |h.row.notes - NamedSet(LookupNames(base))| == 1)
    ensures ScaleDeductionRows(store, base, limiter).Done? ==>
      (h in ScaleDeductionRows(store, base, limiter).value <==>
        && h.row in store.scales && h.row.groupId in store.groups && h.row.notes != {}
        && LimiterAccepts(limiter, h.row.notes) && h == Hit(store.groups, h.row)
        && h.row.notes < NamedSet(LookupNames(base)) && |NamedSet(LookupNames(base)) - h.row.notes| == 1)
  {
    OneSwapped(h.row.notes, LookupNames(base));
    OneAdded(h.row.notes, LookupNames(base));
    OneRemoved(h.row.notes, LookupNames(base));
  }

  /** The results come rooted at or above the base's first note first, each
      part in ascending root order. */
  lemma NearbyScaleOrder(store: Store, base: LookupArg, limiter: LookupArg, sizeShift: int, hitShift: int)
    requires NearbyScaleRows(store, base, limiter, sizeShift, hitShift).Done?
    ensures var hits, q := NearbyScaleRows(store, base, limiter, sizeShift, hitShift).value, IndexOf(LookupNames(base)[0]);
      forall i, j | 0 <= i < j < |hits| ::
        || (hits[i].row.root >= q && hits[j].row.root < q)
        || ((hits[i].row.root >= q) == (hits[j].row.root >= q) && StrLe(Name(hits[i].row.root), Name(hits[j].row.root)))
  {
    ScaleRootOrder(NearbyScaleRows(store, base, limiter, sizeShift, hitShift).value, LookupNames(base)[0]);
  }

  method GetScaleAlterations(store: Store, p: Parsers, base: LookupArg, limiter: LookupArg) returns (r: Outcome<seq<Scale>>)
    ensures r == RebuiltKeepingGood(ScaleAlterationRows(store, base, limiter), p)
  {
    r := RunScaleQueryDropping(ScaleAlterationRows(store, base, limiter), p);
  }

  method GetScaleAppendments(store: Store, p: Parsers, base: LookupArg, limiter: LookupArg) returns (r: Outcome<seq<Scale>>)
    ensures r == RebuiltKeepingGood(ScaleAppendmentRows(store, base, limiter), p)
  {
    r := RunScaleQueryDropping(ScaleAppendmentRows(store, base, limiter), p);
  }

  method GetScaleDeductions(store: Store, p: Parsers, base: LookupArg, limiter: LookupArg) returns (r: Outcome<seq<Scale>>)
    ensures r == RebuiltKeepingGood(ScaleDeductionRows(store, base, limiter), p)
  {
    r := RunScaleQueryDropping(ScaleDeductionRows(store, base, limiter), p);
  }

  // -------------------------------------------------------- getScaleRotations

  /** getScaleRotations' hits: the scales with the base's notes on another
      root, those rooted at or above the given root first, then by root. */
  function ScaleRotationRows(store: Store, root: Option<string>, base: LookupArg): (r: Outcome<seq<ScaleHit>>)
    ensures RootVerdict(root).Thrown? ==> r == Thrown(RootVerdict(root).error)
    ensures RootVerdict(root).Done? && LookupList(base).Thrown? ==> r == Thrown(LookupList(base).error)
    ensures r.Null? <==> RootVerdict(root).Done? && LookupList(base).Done?
                         && (!store.reachable || LookupNames(base) == [])
    ensures r.Done? ==> forall h :: h in r.value <==>
      && h.row in store.scales
      && h.row.groupId in store.groups
      && h.row.notes != {}
      && root.Some? && Name(h.row.root) != root.value
      && |h.row.notes| == |LookupNames(base)|
      && Hits(h.row.notes, LookupNames(base)) == |LookupNames(base)|
      && h == Hit(store.groups, h.row)
    ensures r.Done? ==> SortedBy(r.value, (h: ScaleHit) => ScaleKey(PivotThenRoot(root), h.row))
  {
    var rootOk :- RootVerdict(root);
    var b :- LookupList(base);
    ScaleRotationSelect(store, root, b)
  }

  function ScaleRotationSelect(store: Store, root: Option<string>, b: seq<string>): (r: Outcome<seq<ScaleHit>>)
    ensures !r.Thrown?
    ensures r.Null? <==> !store.reachable || b == []
    ensures r.Done? ==> forall h :: h in r.value <==>
      && h.row in store.scales
      && h.row.groupId in store.groups
      && h.row.notes != {}
      && root.Some? && Name(h.row.root) != root.value
      && |h.row.notes| == |b|
      && Hits(h.row.notes, b) == |b|
      && h == Hit(store.groups, h.row)
    ensures r.Done? ==> SortedBy(r.value, (h: ScaleHit) => ScaleKey(PivotThenRoot(root), h.row))
  {
    SelectScales(store, ScaleCriteria(Common(RootIsNot(root), Counts(|b|, b, |b|), None), None, AnyName), PivotThenRoot(root))
  }

  /** For a plain list, the rotations are exactly the stored scales with the
      same notes on another root. */
  lemma ScaleRotationsShareNotes(store: Store, root: Option<string>, base: LookupArg, h: ScaleHit)
    requires ScaleRotationRows(store, root, base).Done?
    requires PlainNoteList(LookupNames(base))
    ensures h in ScaleRotationRows(store, root, base).value <==>
      && h.row in store.scales && h.row.groupId in store.groups && h == Hit(store.groups, h.row)
      && root.Some? && Name(h.row.root) != root.value && h.row.notes == NamedSet(LookupNames(base))
  {
    SameSet(h.row.notes, LookupNames(base));
    NamedSetSize(LookupNames(base));
  }

  /** Rotations rooted at or above the given root come first, each part in
      ascending root order. */
  lemma ScaleRotationOrder(store: Store, root: Option<string>, base: LookupArg)
    requires ScaleRotationRows(store, root, base).Done?
    requires root.Some?
    ensures var hits, q := ScaleRotationRows(store, root, base).value, IndexOf(root.value);
      forall i, j | 0 <= i < j < |hits| ::
        || (hits[i].row.root >= q && hits[j].row.root < q)
        || ((hits[i].row.root >= q) == (hits[j].row.root >= q) && StrLe(Name(hits[i].row.root), Name(hits[j].row.root)))
  {
    ScaleRootOrder(ScaleRotationRows(store, root, base).value, root.value);
  }

  method GetScaleRotations(store: Store, p: Parsers, root: Option<string>, base: LookupArg) returns (r: Outcome<seq<Scale>>)
    ensures r == RebuiltKeepingGood(ScaleRotationRows(store, root, base), p)
  {
    r := RunScaleQueryDropping(ScaleRotationRows(store, root, base), p);
  }

  // -------------------------------------------------- getScalesFromUserString

  /** `userSelectedScaleNotes ? formatLookupInput(userSelectedScaleNotes) : null`:
      no `.map` follows, so a single note string stays a string. */
  function SelectedScale(selected: LookupArg): (r: Outcome<Option<Formatted>>)
    ensures !r.Null?
    ensures !Truthy(selected) ==> r == Done(None)
    ensures Truthy(selected) ==> (r.Thrown? <==> FormatLookupInput(selected).Thrown?)
    ensures r.Thrown? ==> r.error == InvalidNotesInput
    ensures Truthy(selected) && r.Done? ==> r.value == Some(FormatLookupInput(selected).value)
  {
    if !Truthy(selected) then Done(None)
    else
      var f :- FormatLookupInput(selected);
      Done(Some(f))
  }

  /** The root pivot of the ORDER BY: the selected scale's first entry (the
      first character when it is a string), else the limiter's first note,
      else none. Reading the first entry of an empty list passes undefined,
      which the store refuses. */
  function UserPivot(selected: Option<Formatted>, lim: Option<seq<string>>): (r: Outcome<Option<string>>)
    ensures !r.Thrown?
    ensures r.Null? <==> (selected.Some? && selected.value.List? && selected.value.names == [])
                         || (selected.Some? && selected.value.Text? && selected.value.name == "")
                         || (selected.None? && lim == Some([]))
    ensures selected.Some? && selected.value.List? && selected.value.names != [] ==>
      r == Done(Some(selected.value.names[0]))
    ensures selected.Some? && selected.value.Text? && selected.value.name != "" ==>
      r == Done(Some(selected.value.name[..1]))
    ensures selected.None? && lim.Some? && lim.value != [] ==> r == Done(Some(lim.value[0]))
    ensures selected.None? && lim.None? ==> r == Done(None)
  {
    match selected
    case Some(List(ns)) => if ns == [] then Null else Done(Some(ns[0]))
    case Some(Text(s)) => if s == "" then Null else Done(Some(s[..1]))
    case None =>
      match lim
      case Some(ns) => if ns == [] then Null else Done(Some(ns[0]))
      case None => Done(None)
  }

  /** getScalesFromUserString's hits: the scales whose "root name" has the
      user's text at a word boundary, ignoring ASCII case, that pass the
      limiter. */
  function UserStringRows(store: Store, limiter: LookupArg, selected: LookupArg, userString: Option<string>): (r: Outcome<seq<ScaleHit>>)
    ensures Truthy(selected) && FormatLookupInput(selected).Thrown? ==> r == Thrown(InvalidNotesInput)
    ensures SelectedScale(selected).Done? && LimiterList(limiter).Thrown? ==> r == Thrown(LimiterList(limiter).error)
    ensures r.Null? <==> SelectedScale(selected).Done? && LimiterList(limiter).Done?
                         && (|| !store.reachable
                             || LimiterList(limiter).value == Some([])
                             || UserPivot(SelectedScale(selected).value, LimiterList(limiter).value).Null?)
    ensures r.Done? ==> forall h :: h in r.value <==>
      && h.row in store.scales
      && h.row.groupId in store.groups
      && h.row.notes != {}
      && userString.Some? && TokenFrom(FullName(h.row), userString.value, 0)
      && LimiterAccepts(limiter, h.row.notes)
      && h == Hit(store.groups, h.row)
    ensures r.Done? ==> SelectedScale(selected).Done? && LimiterList(limiter).Done?
    ensures r.Done? ==> UserPivot(SelectedScale(selected).value, LimiterList(limiter).value).Done?
    ensures r.Done? ==> SortedBy(r.value, (h: ScaleHit) =>
      ScaleKey(PivotThenRoot(UserPivot(SelectedScale(selected).value, LimiterList(limiter).value).value), h.row))
  {
    var formatted :- SelectedScale(selected);
    var lim :- LimiterList(limiter);
    var pivot :- UserPivot(formatted, lim);
    UserStringSelect(store, lim, pivot, userString)
  }

  function UserStringSelect(store: Store, lim: Option<seq<string>>, pivot: Option<string>, userString: Option<string>): (r: Outcome<seq<ScaleHit>>)
    ensures !r.Thrown?
    ensures r.Null? <==> !store.reachable || lim == Some([])
    ensures r.Done? ==> forall h :: h in r.value <==>
      && h.row in store.scales
      && h.row.groupId in store.groups
      && h.row.notes != {}
      && userString.Some? && TokenFrom(FullName(h.row), userString.value, 0)
      && (lim.Some? ==> LimiterOk(h.row.notes, lim.value))
      && h == Hit(store.groups, h.row)
    ensures r.Done? ==> SortedBy(r.value, (h: ScaleHit) => ScaleKey(PivotThenRoot(pivot), h.row))
  {
    SelectScales(store, ScaleCriteria(Common(AnyRoot, AnyCount, lim), None, NameToken(userString)), PivotThenRoot(pivot))
  }

  /** With a plain list selected, the results come rooted at or above its
      first note first, each part in ascending root order. */
  lemma UserStringOrder(store: Store, limiter: LookupArg, selected: LookupArg, userString: Option<string>)
    requires UserStringRows(store, limiter, selected, userString).Done?
    requires Truthy(selected) && !(selected.Raw? && selected.value.One?)
    ensures var hits, q := UserStringRows(store, limiter, selected, userString).value, IndexOf(LookupNames(selected)[0]);
      forall i, j | 0 <= i < j < |hits| ::
        || (hits[i].row.root >= q && hits[j].row.root < q)
        || ((hits[i].row.root >= q) == (hits[j].row.root >= q) && StrLe(Name(hits[i].row.root), Name(hits[j].row.root)))
  {
    assert FormatLookupInput(selected).Done? && LookupNames(selected) != [];
    ListSelectionPivot(selected, LimiterList(limiter).value);
    UserStringPivotOrder(store, limiter, selected, userString, LookupNames(selected)[0]);
  }

  /** A selected list orders from its first note. */
  lemma ListSelectionPivot(selected: LookupArg, lim: Option<seq<string>>)
    requires Truthy(selected) && !(selected.Raw? && selected.value.One?) && FormatLookupInput(selected).Done?
    requires LookupNames(selected) != []
    ensures IsNoteName(LookupNames(selected)[0])
    ensures SelectedScale(selected).Done?
    ensures UserPivot(SelectedScale(selected).value, lim) == Done(Some(LookupNames(selected)[0]))
  {
    assert SelectedScale(selected) == Done(Some(List(LookupNames(selected))));
  }

  /** The results come rooted at or above the pivot first, each part in
      ascending root order. */
  lemma UserStringPivotOrder(store: Store, limiter: LookupArg, selected: LookupArg, userString: Option<string>, pivot: string)
    requires UserStringRows(store, limiter, selected, userString).Done?
    requires SelectedScale(selected).Done? && LimiterList(limiter).Done?
    requires UserPivot(SelectedScale(selected).value, LimiterList(limiter).value) == Done(Some(pivot))
    requires IsNoteName(pivot)
    ensures var hits, q := UserStringRows(store, limiter, selected, userString).value, IndexOf(pivot);
      forall i, j | 0 <= i < j < |hits| ::
        || (hits[i].row.root >= q && hits[j].row.root < q)
        || ((hits[i].row.root >= q) == (hits[j].row.root >= q) && StrLe(Name(hits[i].row.root), Name(hits[j].row.root)))
  {
    ScaleRootOrder(UserStringRows(store, limiter, selected, userString).value, pivot);
  }

  /** With nothing selected and no limiter, the results come by root alone. */
  lemma UserStringPlainOrder(store: Store, limiter: LookupArg, selected: LookupArg, userString: Option<string>)
    requires UserStringRows(store, limiter, selected, userString).Done?
    requires !Truthy(selected) && !Truthy(limiter)
    ensures var hits := UserStringRows(store, limiter, selected, userString).value;
      forall i, j | 0 <= i < j < |hits| :: StrLe(Name(hits[i].row.root), Name(hits[j].row.root))
  {
    assert UserPivot(SelectedScale(selected).value, LimiterList(limiter).value) == Done(None);
    ScalePlainRootOrder(UserStringRows(store, limiter, selected, userString).value);
  }

  /** With a single note string selected, the pivot is the string's first
      character: "C#" orders from C. */
  lemma UserStringTextOrder(store: Store, limiter: LookupArg, selected: LookupArg, userString: Option<string>)
    requires UserStringRows(store, limiter, selected, userString).Done?
    requires Truthy(selected) && selected.Raw? && selected.value.One?
    ensures selected.value.name != "" && IsNoteName(selected.value.name[..1])
    ensures var hits, q := UserStringRows(store, limiter, selected, userString).value, IndexOf(selected.value.name[..1]);
      forall i, j | 0 <= i < j < |hits| ::
        || (hits[i].row.root >= q && hits[j].row.root < q)
        || ((hits[i].row.root >= q) == (hits[j].row.root >= q) && StrLe(Name(hits[i].row.root), Name(hits[j].row.root)))
  {
    assert FormatLookupInput(selected).Done?;
    TextSelectionPivot(selected, LimiterList(limiter).value);
    UserStringPivotOrder(store, limiter, selected, userString, selected.value.name[..1]);
  }

  /** A selected note string orders from its first character. */
  lemma TextSelectionPivot(selected: LookupArg, lim: Option<seq<string>>)
    requires Truthy(selected) && selected.Raw? && selected.value.One? && FormatLookupInput(selected).Done?
    ensures selected.value.name != "" && IsNoteName(selected.value.name[..1])
    ensures SelectedScale(selected).Done?
    ensures UserPivot(SelectedScale(selected).value, lim) == Done(Some(selected.value.name[..1]))
  {
    var name := selected.value.name;
    assert LookupNames(selected) == [name];
    assert IsNoteName(LookupNames(selected)[0]);
    FirstCharacterIsNoteName(name);
    assert SelectedScale(selected) == Done(Some(Text(name)));
  }

  /** The first character of a note name is a note name: the natural below
      or at it. */
  lemma FirstCharacterIsNoteName(name: string)
    requires IsNoteName(name)
    ensures IsNoteName(name[..1])
  {
    assert name[..1] == [name[0]];
    assert "A" == ['A'] && "B" == ['B'] && "C" == ['C'] && "D" == ['D'];
    assert "E" == ['E'] && "F" == ['F'] && "G" == ['G'];
  }

  /** With nothing selected and a limiter, the results come rooted at or
      above the limiter's first note first, each part in ascending root
      order. */
  lemma UserStringLimiterOrder(store: Store, limiter: LookupArg, selected: LookupArg, userString: Option<string>)
    requires UserStringRows(store, limiter, selected, userString).Done?
    requires !Truthy(selected) && Truthy(limiter)
    ensures LookupNames(limiter) != [] && IsNoteName(LookupNames(limiter)[0])
    ensures var hits, q := UserStringRows(store, limiter, selected, userString).value, IndexOf(LookupNames(limiter)[0]);
      forall i, j | 0 <= i < j < |hits| ::
        || (hits[i].row.root >= q && hits[j].row.root < q)
        || ((hits[i].row.root >= q) == (hits[j].row.root >= q) && StrLe(Name(hits[i].row.root), Name(hits[j].row.root)))
  {
    assert LimiterList(limiter) == Done(Some(LookupNames(limiter)));
    assert LookupNames(limiter) != [];
    LimiterPivot(selected, limiter);
    UserStringPivotOrder(store, limiter, selected, userString, LookupNames(limiter)[0]);
  }

  /** With nothing selected, a limiter orders from its first note. */
  lemma LimiterPivot(selected: LookupArg, limiter: LookupArg)
    requires !Truthy(selected) && LimiterList(limiter) == Done(Some(LookupNames(limiter))) && LookupNames(limiter) != []
    ensures IsNoteName(LookupNames(limiter)[0])
    ensures SelectedScale(selected) == Done(None)
    ensures UserPivot(SelectedScale(selected).value, LimiterList(limiter).value) == Done(Some(LookupNames(limiter)[0]))
  {
  }

  /** The token occurs in s at a word boundary at or after position i. */
  lemma {:induction false} TokenFromAt(s: string, token: string, i: nat)
    requires i <= |s|
    ensures TokenFrom(s, token, i) <==> exists k | i <= k <= |s| :: BoundaryAt(s, k) && FoldPrefix(token, s[k..])
    decreases |s| - i
  {
    if i < |s| {
      TokenFromAt(s, token, i + 1);
    }
  }

  /** Every note name starts with a letter. */
  lemma NameStartsWithLetter(p: PitchClass)
    ensures |Name(p)| > 0 && IsWordChar(Name(p)[0])
  {
  }

  /** A token that is a prefix of the scale's "root name", or of its name
      when that name begins with a letter or digit, finds the scale. */
  lemma TokenFindsScale(row: ScaleRow, token: string)
    ensures FoldPrefix(token, FullName(row)) ==> NameMatches(NameToken(Some(token)), row)
    ensures |row.name| > 0 && IsWordChar(row.name[0]) && FoldPrefix(token, row.name) ==>
      NameMatches(NameToken(Some(token)), row)
  {
    var s := FullName(row);
    NameStartsWithLetter(row.root);
    TokenFromAt(s, token, 0);
    assert s[0] == Name(row.root)[0];
    assert s[0..] == s;
    var k := |Name(row.root)| + 1;
    assert s[k - 1] == ' ';
    assert s[k..] == row.name;
    if |row.name| > 0 {
      assert s[k] == row.name[0];
    }
  }

  method GetScalesFromUserString(store: Store, p: Parsers, limiter: LookupArg, selected: LookupArg, userString: Option<string>)
    returns (r: Outcome<seq<Scale>>)
    ensures r == RebuiltKeepingGood(UserStringRows(store, limiter, selected, userString), p)
  {
    r := RunScaleQueryDropping(UserStringRows(store, limiter, selected, userString), p);
  }
}
