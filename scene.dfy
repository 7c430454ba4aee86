/** The per-image scene graph every script works on: objects with an id, a `names`
    list and an integer box, relationships given as subject/predicate/object ids, and
    the derived `triplets`; plus the relationship-integrity step all four scripts share
    (prune relationships that reference removed ids, rebuild the triplets) and the
    detection of the two accepted document shapes. */
module Scene {
  import opened Text

  datatype Box = Box(x: int, y: int, w: int, h: int)

  /** One entry of `objects`: `object_id`, `names` (the first one is the label) and `x, y, w, h`. */
  datatype Obj = Obj(id: int, names: seq<string>, box: Box)

  /** One entry of `relationships`. */
  datatype Rel = Rel(subjectId: int, pred: string, objectId: int)

  /** One entry of `triplets`: the names behind a relationship, for human inspection. */
  datatype Triplet = Triplet(subj: string, pred: string, obj: string)

  datatype Image = Image(imageId: int, objects: seq<Obj>, relationships: seq<Rel>, triplets: seq<Triplet>)

  datatype Option<T> = None | Some(value: T)

  /** `ValueError` on an unsupported document; the `assert` on an empty field group. */
  datatype Error = UnsupportedFormat | EmptyGroup

  datatype Result<T> = Ok(value: T) | Failure(error: Error)

  function Last<T>(s: seq<T>): T
    requires |s| > 0
  {
    s[|s| - 1]
  }

  function DropLast<T>(s: seq<T>): seq<T>
    requires |s| > 0
  {
    s[..|s| - 1]
  }

  /** `f` applied to each element, in order. */
  function MapSeq<A, B>(f: A -> B, xs: seq<A>): (r: seq<B>)
    ensures |r| == |xs|
    ensures forall k | 0 <= k < |xs| :: r[k] == f(xs[k])
  {
    if xs == [] then [] else MapSeq(f, DropLast(xs)) + [f(Last(xs))]
  }

  lemma MapSeqStep<A, B>(f: A -> B, xs: seq<A>, i: nat)
    requires i < |xs|
    ensures MapSeq(f, xs[..i + 1]) == MapSeq(f, xs[..i]) + [f(xs[i])]
  {
    assert DropLast(xs[..i + 1]) == xs[..i] && Last(xs[..i + 1]) == xs[i];
  }

  /** `_lname((o.get("names") or [""])[0])`: the normalised label of an object, "" when it has no names. */
  function Name(o: Obj): (r: string)
    ensures Normal(r)
  {
    if |o.names| == 0 then "" else NormLowerIsNormal(o.names[0]); NormLower(o.names[0])
  }

  function Ids(objs: seq<Obj>): set<int> {
    set o | o in objs :: o.id
  }

  /** `{obj_name(o) for o in objs}`: the label of every object. */
  function AllNames(objs: seq<Obj>): set<string> {
    set o | o in objs :: Name(o)
  }

  predicate UniqueIds(objs: seq<Obj>) {
    forall i, j | 0 <= i < j < |objs| :: objs[i].id != objs[j].id
  }

  /** `{o.get("object_id"): _obj_name(o) for o in objs}`: a later object with the same id
      overrides an earlier one. */
  function IdToName(objs: seq<Obj>): (m: map<int, string>)
    ensures m.Keys == Ids(objs)
  {
    if objs == [] then map[]
    else
      var m := IdToName(DropLast(objs))[Last(objs).id := Name(Last(objs))];
      assert objs == DropLast(objs) + [Last(objs)];
      m
  }

  /** Appending an object records its label under its id, overriding any earlier one. */
  lemma IdToNameSnoc(objs: seq<Obj>, o: Obj)
    ensures IdToName(objs + [o]) == IdToName(objs)[o.id := Name(o)]
  {
    assert DropLast(objs + [o]) == objs && Last(objs + [o]) == o;
  }

  /** Two objects of a list with unique ids and the same id are the same object. */
  lemma SameIdSameObject(objs: seq<Obj>, a: Obj, b: Obj)
    requires UniqueIds(objs) && a in objs && b in objs && a.id == b.id
    ensures a == b
  {
    var i :| 0 <= i < |objs| && objs[i] == a;
    var j :| 0 <= j < |objs| && objs[j] == b;
    assert i == j;
  }

  /** Every label in the id-to-name map is the label of some object. */
  lemma {:induction false} IdToNameLabels(objs: seq<Obj>)
    ensures IdToName(objs).Values <= AllNames(objs)
  {
    if objs != [] {
      var init, o := DropLast(objs), Last(objs);
      var mi, m := IdToName(init), IdToName(objs);
      IdToNameLabels(init);
      IdToNameSnoc(init, o);
      assert objs == init + [o];
      forall n | n in m.Values ensures n in AllNames(objs) {
        var k :| k in m && m[k] == n;
        if k == o.id {
          assert o in objs;
        } else {
          assert n in mi.Values;
          var p :| p in init && Name(p) == n;
          assert p in objs;
        }
      }
    }
  }

  /** `id2name.get(id, "")`. */
  function LabelOf(objs: seq<Obj>, id: int): string {
    var m := IdToName(objs);
    if id in m then m[id] else ""
  }

  /** `set(id2name.values())`: the labels of the objects that are not shadowed by a later
      object with the same id. */
  function MapNames(objs: seq<Obj>): (names: set<string>)
    ensures names <= AllNames(objs)
  {
    IdToNameLabels(objs);
    IdToName(objs).Values
  }

  /** With unique ids every object's id looks up its own label. */
  lemma {:induction false} LabelOfUnique(objs: seq<Obj>, k: nat)
    requires UniqueIds(objs) && k < |objs|
    ensures LabelOf(objs, objs[k].id) == Name(objs[k])
  {
    if k < |objs| - 1 {
      LabelOfUnique(DropLast(objs), k);
      assert LabelOf(objs, objs[k].id) == LabelOf(DropLast(objs), objs[k].id);
    }
  }

  /** With unique ids the id-to-name map loses no label. */
  lemma MapNamesUnique(objs: seq<Obj>)
    requires UniqueIds(objs)
    ensures MapNames(objs) == AllNames(objs)
  {
    forall n | n in AllNames(objs) ensures n in MapNames(objs) {
      var k :| 0 <= k < |objs| && Name(objs[k]) == n;
      LabelOfUnique(objs, k);
    }
  }

  // ---------------------------------------------------------------------------
  // Relationship integrity

  /** `[o for o in objs if o.get("object_id") not in drop_ids]`. */
  function KeepObjects(objs: seq<Obj>, drop: set<int>): (r: seq<Obj>)
    ensures |r| <= |objs|
    ensures forall o :: o in r <==> o in objs && o.id !in drop
  {
    if objs == [] then []
    else
      assert objs == DropLast(objs) + [Last(objs)];
      KeepObjects(DropLast(objs), drop) + (if Last(objs).id in drop then [] else [Last(objs)])
  }

  /** The relationships that reference no id in `drop`, in their order. */
  function KeepRelations(rels: seq<Rel>, drop: set<int>): (r: seq<Rel>)
    ensures |r| <= |rels|
    ensures forall x :: x in r <==> x in rels && x.subjectId !in drop && x.objectId !in drop
  {
    if rels == [] then []
    else
      assert rels == DropLast(rels) + [Last(rels)];
      var x := Last(rels);
      KeepRelations(DropLast(rels), drop) + (if x.subjectId in drop || x.objectId in drop then [] else [x])
  }

  /** Removal keeps the survivors in their order: it distributes over concatenation. */
  lemma {:induction false} KeepObjectsConcat(a: seq<Obj>, b: seq<Obj>, drop: set<int>)
    ensures KeepObjects(a + b, drop) == KeepObjects(a, drop) + KeepObjects(b, drop)
  {
    if b != [] {
      KeepObjectsConcat(a, DropLast(b), drop);
      assert DropLast(a + b) == a + DropLast(b);
    } else {
      assert a + b == a;
    }
  }

  lemma {:induction false} KeepRelationsConcat(a: seq<Rel>, b: seq<Rel>, drop: set<int>)
    ensures KeepRelations(a + b, drop) == KeepRelations(a, drop) + KeepRelations(b, drop)
  {
    if b != [] {
      KeepRelationsConcat(a, DropLast(b), drop);
      assert DropLast(a + b) == a + DropLast(b);
    } else {
      assert a + b == a;
    }
  }

  /** Dropping ids that no object carries changes nothing. */
  lemma {:induction false} KeepObjectsNothing(objs: seq<Obj>, drop: set<int>)
    requires forall o | o in objs :: o.id !in drop
    ensures KeepObjects(objs, drop) == objs
  {
    if objs != [] {
      assert objs == DropLast(objs) + [Last(objs)];
      assert forall o | o in DropLast(objs) :: o in objs;
      KeepObjectsNothing(DropLast(objs), drop);
    }
  }

  lemma {:induction false} KeepRelationsNothing(rels: seq<Rel>, drop: set<int>)
    requires forall x | x in rels :: x.subjectId !in drop && x.objectId !in drop
    ensures KeepRelations(rels, drop) == rels
  {
    if rels != [] {
      assert rels == DropLast(rels) + [Last(rels)];
      assert forall x | x in DropLast(rels) :: x in rels;
      KeepRelationsNothing(DropLast(rels), drop);
    }
  }

  /** Every relationship references objects of the image. */
  predicate NoDangling(objs: seq<Obj>, rels: seq<Rel>) {
    forall x | x in rels :: x.subjectId in Ids(objs) && x.objectId in Ids(objs)
  }

  /** Pruning creates no dangling reference: an id a surviving relationship found among
      the objects before the removal is still there afterwards. */
  lemma PruneCreatesNoDangling(objs: seq<Obj>, rels: seq<Rel>, drop: set<int>)
    ensures forall x | x in KeepRelations(rels, drop) ::
      && (x.subjectId in Ids(objs) ==> x.subjectId in Ids(KeepObjects(objs, drop)))
      && (x.objectId in Ids(objs) ==> x.objectId in Ids(KeepObjects(objs, drop)))
    ensures NoDangling(objs, rels) ==> NoDangling(KeepObjects(objs, drop), KeepRelations(rels, drop))
  {
    var kept := KeepObjects(objs, drop);
    forall id | id in Ids(objs) && id !in drop ensures id in Ids(kept) {
      var o :| o in objs && o.id == id;
      assert o in kept;
    }
  }

  /** A relationship both of whose names are non-empty. */
  predicate Labelled(objs: seq<Obj>, x: Rel) {
    LabelOf(objs, x.subjectId) != "" && LabelOf(objs, x.objectId) != ""
  }

  function TripletOf(objs: seq<Obj>, x: Rel): Triplet {
    Triplet(LabelOf(objs, x.subjectId), x.pred, LabelOf(objs, x.objectId))
  }

  /** The `triplets` rebuild: one triplet per relationship whose two names are non-empty. */
  function Triplets(objs: seq<Obj>, rels: seq<Rel>): (r: seq<Triplet>)
    ensures |r| <= |rels|
  {
    if rels == [] then []
    else
      assert rels == DropLast(rels) + [Last(rels)];
      var x := Last(rels);
      Triplets(objs, DropLast(rels)) + (if Labelled(objs, x) then [TripletOf(objs, x)] else [])
  }

  /** Every triplet has two non-empty names and comes from a relationship of the image,
      whose predicate it carries. */
  lemma {:induction false} TripletsSound(objs: seq<Obj>, rels: seq<Rel>)
    ensures forall t | t in Triplets(objs, rels) :: t.subj != "" && t.obj != ""
    ensures forall t | t in Triplets(objs, rels) ::
      exists x | x in rels :: Labelled(objs, x) && t == TripletOf(objs, x)
  {
    if rels != [] {
      TripletsSound(objs, DropLast(rels));
      assert rels == DropLast(rels) + [Last(rels)];
    }
  }

  /** The relationships that yield a triplet, in order. */
  function LabelledRelations(objs: seq<Obj>, rels: seq<Rel>): seq<Rel> {
    if rels == [] then []
    else LabelledRelations(objs, DropLast(rels)) + (if Labelled(objs, Last(rels)) then [Last(rels)] else [])
  }

  /** The triplets correspond one to one, in order, to the relationships whose names are
      both non-empty, and each carries its relationship's predicate. */
  lemma {:induction false} TripletsMatchRelations(objs: seq<Obj>, rels: seq<Rel>)
    ensures var t := Triplets(objs, rels); var l := LabelledRelations(objs, rels);
      && |t| == |l|
      && forall k | 0 <= k < |t| :: t[k] == TripletOf(objs, l[k])
  {
    if rels != [] {
      TripletsMatchRelations(objs, DropLast(rels));
    }
  }

  /** When every relationship has two non-empty names there is one triplet per relationship. */
  lemma {:induction false} TripletsAllLabelled(objs: seq<Obj>, rels: seq<Rel>)
    requires forall x | x in rels :: Labelled(objs, x)
    ensures |Triplets(objs, rels)| == |rels|
  {
    if rels != [] {
      assert forall x | x in DropLast(rels) :: x in rels;
      TripletsAllLabelled(objs, DropLast(rels));
    }
  }

  /** One more relationship adds at most its own triplet. */
  lemma TripletsStep(objs: seq<Obj>, rels: seq<Rel>, i: nat)
    requires i < |rels|
    ensures Triplets(objs, rels[..i + 1]) ==
      Triplets(objs, rels[..i]) + (if Labelled(objs, rels[i]) then [TripletOf(objs, rels[i])] else [])
  {
    var next := rels[..i + 1];
    assert DropLast(next) == rels[..i] && Last(next) == rels[i];
  }

  /** The loop shared by `rebuild_triplets` / `_rebuild_triplets` and step (4) of `harmonize_one`. */
  method RebuildTriplets(objs: seq<Obj>, rels: seq<Rel>) returns (triplets: seq<Triplet>)
    ensures triplets == Triplets(objs, rels)
  {
    var id2name := IdToName(objs);
    triplets := [];
    for i := 0 to |rels|
      invariant triplets == Triplets(objs, rels[..i])
    {
      var x := rels[i];
      var s := if x.subjectId in id2name then id2name[x.subjectId] else "";
      var o := if x.objectId in id2name then id2name[x.objectId] else "";
      TripletsStep(objs, rels, i);
      if s != "" && o != "" {
        triplets := triplets + [Triplet(s, x.pred, o)];
      }
    }
    assert rels[..|rels|] == rels;
  }

  // ---------------------------------------------------------------------------
  // Repeated ids

  /** A later object with the same id overrides the label of an earlier one in the
      id-to-name map. */
  lemma ShadowedIdToName(first: Obj, second: Obj, other: Obj)
    requires first.id == second.id && other.id != first.id
    ensures var m := IdToName([first, second, other]);
      m.Keys == {first.id, other.id} && m[first.id] == Name(second) && m[other.id] == Name(other)
  {
    var m0, m1, m := IdToName([first]), IdToName([first, second]), IdToName([first, second, other]);
    assert m0 == map[first.id := Name(first)] by {
      IdToNameSnoc([], first);
      assert [] + [first] == [first];
    }
    assert m1 == m0[second.id := Name(second)] by {
      IdToNameSnoc([first], second);
      assert [first] + [second] == [first, second];
    }
    assert m == m1[other.id := Name(other)] by {
      IdToNameSnoc([first, second], other);
      assert [first, second] + [other] == [first, second, other];
    }
  }

  lemma ValuesOfTwo(m: map<int, string>, a: int, b: int)
    requires m.Keys == {a, b}
    ensures m.Values == {m[a], m[b]}
  {
    forall v | v in m.Values ensures v == m[a] || v == m[b] {
      var k :| k in m && m[k] == v;
    }
  }

  /** So the earlier label is missing from the labels the scene tests look at. */
  lemma ShadowedLabel(first: Obj, second: Obj, other: Obj)
    requires first.id == second.id && other.id != first.id
    ensures MapNames([first, second, other]) == {Name(second), Name(other)}
  {
    ShadowedIdToName(first, second, other);
    ValuesOfTwo(IdToName([first, second, other]), first.id, other.id);
  }

  /** Dropping the shared id leaves only the other object. */
  lemma KeepOther(first: Obj, second: Obj, other: Obj)
    requires first.id == second.id && other.id != first.id
    ensures KeepObjects([first, second, other], {first.id}) == [other]
  {
    assert DropLast([first]) == [];
    assert KeepObjects([first], {first.id}) == [];
    assert DropLast([first, second]) == [first];
    assert KeepObjects([first, second], {first.id}) == [];
    assert DropLast([first, second, other]) == [first, second];
  }

  // ---------------------------------------------------------------------------
  // The annotation record the cleaning passes update in place, and the document shapes

  /** One per-image annotation dict. The cleaning passes assign its `objects`,
      `relationships` and `triplets` entries in place. */
  class Annotation {
    /** The keys the dict was loaded with; only format detection looks at them. */
    const keys: set<string>
    var imageId: int
    var objects: seq<Obj>
    var relationships: seq<Rel>
    var triplets: seq<Triplet>

    constructor (keys: set<string>, image: Image)
      ensures this.keys == keys && View() == image
    {
      this.keys := keys;
      imageId := image.imageId;
      objects := image.objects;
      relationships := image.relationships;
      triplets := image.triplets;
    }

    function View(): Image
      reads this
    {
      Image(imageId, objects, relationships, triplets)
    }

    /** Writes back an image of the same id: the three lists are replaced. */
    method SetView(image: Image)
      requires image.imageId == imageId
      modifies this
      ensures View() == image
    {
      objects, relationships, triplets := image.objects, image.relationships, image.triplets;
    }
  }

  /** A loaded JSON document: a list of annotations, a dict that may hold them under
      "annotations", or anything else. */
  datatype Document =
    | ListDoc(items: seq<Annotation>)
    | DictDoc(keys: set<string>, annotations: seq<Annotation>)
    | OtherDoc

  datatype Format = Vg | VgWrapped | Unknown

  /** `detect_format` / `_detect_format` of the three cleaning scripts (identical bodies). */
  function DetectFormat(doc: Document): (f: Format)
    ensures f == Vg <==> doc.ListDoc? && |doc.items| > 0 && {"objects", "relationships"} <= doc.items[0].keys
    ensures f == VgWrapped <==> doc.DictDoc? && "annotations" in doc.keys
  {
    match doc
    case ListDoc(items) =>
      if |items| > 0 && "objects" in items[0].keys && "relationships" in items[0].keys then Vg else Unknown
    case DictDoc(keys, _) => if "annotations" in keys then VgWrapped else Unknown
    case OtherDoc => Unknown
  }

  /** The annotations a document of a known format is processed over. */
  function Annotations(doc: Document): seq<Annotation> {
    match doc
    case ListDoc(items) => items
    case DictDoc(_, anns) => anns
    case OtherDoc => []
  }

  /** A decoded document never shares one dict between two positions. */
  predicate Distinct(anns: seq<Annotation>) {
    forall i, j | 0 <= i < j < |anns| :: anns[i] != anns[j]
  }

  function AnnotationSet(anns: seq<Annotation>): set<Annotation> {
    set a | a in anns
  }

  /** The images the annotations currently hold. */
  ghost function Views(anns: seq<Annotation>): (r: seq<Image>)
    reads AnnotationSet(anns)
    ensures |r| == |anns| && forall k | 0 <= k < |anns| :: r[k] == anns[k].View()
  {
    seq(|anns|, k requires 0 <= k < |anns| reads AnnotationSet(anns) => anns[k].View())
  }
}
