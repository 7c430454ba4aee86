/** The triplet standardiser: object-label synonyms, ordered contextual predicate
    rewrites, the implausible-triple filter, and its two input shapes (simple triplet
    lists and per-image annotations). The regular expressions of the rule table are
    written as the finite string sets and substring tests they denote. */
module Standardize {
  import opened Text
  import opened Scene

  /** `RULES["synonyms_obj"]`. */
  const Synonyms: map<string, string> := map[
    "giày thể thao" := "giày",
    "giày sneaker" := "giày",
    "giày tennis" := "giày",
    "đồ thể thao" := "trang phục thể thao",
    "đồng phục thể thao" := "trang phục thể thao",
    "sân bóng" := "sân bóng đá"
  ]

  /** `RULES["wear_targets"]`. */
  const WearTargets: set<string> :=
    {"áo", "áo đấu", "áo thi đấu", "đồng phục", "trang phục", "trang phục thể thao", "quần áo"}

  /** `RULES["shoe_targets"]`. */
  const ShoeTargets: set<string> := {"giày", "giày thể thao", "giày bóng đá", "giày tennis"}

  /** `RULES["place_targets"]`. */
  const PlaceTargets: set<string> :=
    {"sân bóng đá", "sân tennis", "sân bóng chày", "khung thành", "lưới", "sân"}

  /** `RULES["predicate_replacements"]`. */
  const Replacements: map<string, string> := map["đánh vung" := "vung", "vung vợt vào" := "vung"]

  /** The subject column of an implausible pattern: `.*` (any string without a line
      break, since `.` does not match one) or a literal label. */
  datatype SubjectPattern = AnyLine | Exactly(literal: string)

  /** One row of `RULES["implausible_patterns"]`; the object column is the finite set its
      regular expression fully matches. */
  datatype Pattern = Pattern(subject: SubjectPattern, pred: string, objects: set<string>)

  /** The clothing labels `áo( đấu)?|đồng phục|trang phục( thể thao)?` fully matches. */
  const ClothingPattern: set<string> := {"áo", "áo đấu", "đồng phục", "trang phục", "trang phục thể thao"}

  const ImplausiblePatterns: seq<Pattern> := [
    Pattern(AnyLine, "gần", ClothingPattern),
    Pattern(Exactly("bóng tennis"), "trên", {"cầu thủ"}),
    Pattern(Exactly("găng bóng chày"), "trên", {"sân bóng đá"}),
    Pattern(Exactly("sân bóng chày"), "trên", {"sân bóng đá"})
  ]

  // Each label below is normal; one lemma per literal keeps every proof small.
  lemma NormalGiay() ensures Normal("giày") {}
  lemma NormalSportsWear() ensures Normal("trang phục thể thao") {}
  lemma NormalSoccerField() ensures Normal("sân bóng đá") {}
  lemma NormalMac() ensures Normal("mặc") {}
  lemma NormalMang() ensures Normal("mang") {}
  lemma NormalDeo() ensures Normal("đeo") {}
  lemma NormalNamTren() ensures Normal("nằm trên") {}
  lemma NormalNamTrong() ensures Normal("nằm trong") {}
  lemma NormalOTrong() ensures Normal("ở trong") {}
  lemma NormalVung() ensures Normal("vung") {}

  /** The three canonical labels the synonym table maps to. */
  const CanonicalTargets: set<string> := {"giày", "trang phục thể thao", "sân bóng đá"}

  lemma CanonicalTargetsNormal()
    ensures forall l | l in CanonicalTargets :: Normal(l)
  {
    NormalGiay();
    NormalSportsWear();
    NormalSoccerField();
  }

  /** The canonical labels of the synonym table are normal and none of them is a key. */
  lemma CanonicalLabels()
    ensures forall k | k in Synonyms :: Normal(Synonyms[k]) && Synonyms[k] !in Synonyms
  {
    CanonicalTargetsNormal();
    forall k | k in Synonyms ensures Synonyms[k] in CanonicalTargets && Synonyms[k] !in Synonyms {
    }
  }

  /** `normalize_object_label`: lower-case, strip, then map a known synonym to its canonical label. */
  function NormalizeObjectLabel(raw: string): string {
    var lab := NormLower(raw);
    if lab in Synonyms then Synonyms[lab] else lab
  }

  /** The normalised label is normal and never itself a synonym key; a label that is not a
      key after lower-casing and stripping passes through unchanged. */
  lemma NormalizeObjectLabelSpec(raw: string)
    ensures var r := NormalizeObjectLabel(raw);
      && Normal(r) && r !in Synonyms
      && (NormLower(raw) !in Synonyms ==> r == NormLower(raw))
      && (NormLower(raw) in Synonyms ==> r == Synonyms[NormLower(raw)])
  {
    NormLowerIsNormal(raw);
    CanonicalLabels();
  }

  /** Normalising a label a second time changes nothing. */
  lemma NormalizeObjectLabelIdempotent(raw: string)
    ensures NormalizeObjectLabel(NormalizeObjectLabel(raw)) == NormalizeObjectLabel(raw)
  {
    NormalizeObjectLabelSpec(raw);
    NormalIsFixed(NormalizeObjectLabel(raw));
  }

  /** An already normal label that is not a synonym passes through unchanged. */
  lemma NormalizeObjectLabelPassThrough(raw: string)
    requires Normal(raw) && raw !in Synonyms
    ensures NormalizeObjectLabel(raw) == raw
  {
    NormalIsFixed(raw);
  }

  /** The replacement table applied to a normalised predicate. */
  function Replace(p: string): string {
    if p in Replacements then Replacements[p] else p
  }

  /** The ordered rules of `fix_predicate` on the replaced predicate `p`, the normalised
      subject `s` and the normalised object `o`: the first rule that matches decides. */
  function Rewrite(p: string, s: string, o: string): string {
    if p == "đeo" && o in WearTargets then "mặc"
    else if p == "đeo" && o in ShoeTargets then "mang"
    else if p == "bắt" && StartsWith(o, "găng") then "đeo"
    else if (p == "trên sân" || p == "trên") && Contains(s, "bóng") && o in PlaceTargets then "nằm trên"
    else if p == "trong" && o == "khung thành" then "nằm trong"
    else if p == "trong" && o in PlaceTargets then "ở trong"
    else p
  }

  /** `fix_predicate`. */
  function FixPredicate(verb: string, subj: string, obj: string): string {
    Rewrite(Replace(NormLower(verb)), NormLower(subj), NormalizeObjectLabel(obj))
  }

  /** "đeo" (wear) becomes "mặc" for clothing, else "mang" for footwear, else it falls through. */
  lemma RewriteWear(p: string, s: string, o: string)
    requires p == "đeo"
    ensures o in WearTargets ==> Rewrite(p, s, o) == "mặc"
    ensures o !in WearTargets && o in ShoeTargets ==> Rewrite(p, s, o) == "mang"
    ensures o !in WearTargets && o !in ShoeTargets ==> Rewrite(p, s, o) == "đeo"
  {
  }

  /** "bắt" (catch) a glove becomes "đeo"; "trong" (in) a goal becomes "nằm trong" ahead of
      the "ở trong" rule for the other places, although the goal is a place too. */
  lemma RewriteCatchAndInside(p: string, s: string, o: string)
    ensures p == "bắt" && StartsWith(o, "găng") ==> Rewrite(p, s, o) == "đeo"
    ensures p == "trong" && o == "khung thành" ==> "khung thành" in PlaceTargets && Rewrite(p, s, o) == "nằm trong"
    ensures p == "trong" && o != "khung thành" ==>
      Rewrite(p, s, o) == if o in PlaceTargets then "ở trong" else "trong"
  {
  }

  /** "trên"/"trên sân" (on) becomes "nằm trên" exactly when the subject mentions a ball and
      the object is a place; otherwise it is kept. */
  lemma RewriteOn(p: string, s: string, o: string)
    requires p in {"trên", "trên sân"}
    ensures Rewrite(p, s, o) == if Contains(s, "bóng") && o in PlaceTargets then "nằm trên" else p
  {
  }

  /** Any other predicate comes back unchanged. */
  lemma RewriteOther(p: string, s: string, o: string)
    requires p !in {"đeo", "bắt", "trên", "trên sân", "trong"}
    ensures Rewrite(p, s, o) == p
  {
  }

  /** The verbs the rules can produce. */
  const RuleVerbs: set<string> := {"mặc", "mang", "đeo", "nằm trên", "nằm trong", "ở trong"}

  lemma RuleVerbsNormal()
    ensures forall v | v in RuleVerbs :: Normal(v)
  {
    NormalMac();
    NormalMang();
    NormalDeo();
    NormalNamTren();
    NormalNamTrong();
    NormalOTrong();
  }

  /** The rules either keep the predicate or produce one of their own verbs. */
  lemma RewriteRange(p: string, s: string, o: string)
    ensures Rewrite(p, s, o) == p || Rewrite(p, s, o) in RuleVerbs
  {
  }

  lemma ReplaceNormal(p: string)
    requires Normal(p)
    ensures Normal(Replace(p))
  {
    NormalVung();
  }

  /** The result of `fix_predicate` is normal: either the normalised, replaced predicate or one
      of the rules' verbs. */
  lemma FixPredicateNormal(verb: string, subj: string, obj: string)
    ensures var r := FixPredicate(verb, subj, obj);
      Normal(r) && (r == Replace(NormLower(verb)) || r in RuleVerbs)
  {
    var p := Replace(NormLower(verb));
    NormLowerIsNormal(verb);
    ReplaceNormal(NormLower(verb));
    RewriteRange(p, NormLower(subj), NormalizeObjectLabel(obj));
    RuleVerbsNormal();
  }

  predicate SubjectMatches(pat: SubjectPattern, s: string) {
    match pat
    case AnyLine => '\n' !in s
    case Exactly(literal) => s == literal
  }

  predicate Matches(pat: Pattern, s: string, p: string, o: string) {
    p == pat.pred && SubjectMatches(pat.subject, s) && o in pat.objects
  }

  /** Some row of the table matches an already normalised triple. */
  predicate Implausible(s: string, p: string, o: string) {
    exists k | 0 <= k < |ImplausiblePatterns| :: Matches(ImplausiblePatterns[k], s, p, o)
  }

  /** `drop_implausible`: some pattern matches the normalised triple. */
  predicate DropImplausible(subj: string, verb: string, obj: string) {
    Implausible(NormLower(subj), NormLower(verb), NormLower(obj))
  }

  /** `standardize_triplet`. */
  function StandardizeTriplet(subj: string, pred: string, obj: string): Option<Triplet> {
    var s := NormLower(subj);
    var o := NormalizeObjectLabel(obj);
    var p := FixPredicate(pred, s, o);
    if DropImplausible(s, p, o) then None
    else Some(Triplet(s, if p == "trên sân" then "nằm trên" else p, o))
  }

  /** The last two steps of `standardize_triplet` on a normalised subject `s`, a rewritten
      predicate `p` and a normalised object `o`: reject an implausible triple, then spell
      "trên sân" as "nằm trên". */
  function Finish(s: string, p: string, o: string): (r: Option<Triplet>)
    ensures r.Some? ==> r.value.subj == s && r.value.obj == o && r.value.pred != "trên sân"
    ensures r.Some? ==> r.value.pred == p || r.value.pred == "nằm trên"
    ensures r.Some? <==> !Implausible(s, p, o)
  {
    if Implausible(s, p, o) then None
    else Some(Triplet(s, if p == "trên sân" then "nằm trên" else p, o))
  }

  /** The predicate the implausibility check sees: the rules applied to the normalised subject
      and object, with the predicate normalised and replaced. */
  function RewrittenPredicate(subj: string, pred: string, obj: string): string {
    Rewrite(Replace(NormLower(pred)), NormLower(subj), NormalizeObjectLabel(obj))
  }

  /** `standardize_triplet` normalises the subject and the object once and rewrites the
      predicate once: normalising again inside `fix_predicate` and `drop_implausible` changes
      nothing. So the triple is rejected exactly when a pattern matches the normalised subject,
      the REWRITTEN predicate and the normalised object; and a kept triplet holds normal strings. */
  lemma StandardizeTripletFinish(subj: string, pred: string, obj: string)
    ensures var s, o := NormLower(subj), NormalizeObjectLabel(obj);
      StandardizeTriplet(subj, pred, obj) == Finish(s, RewrittenPredicate(subj, pred, obj), o)
  {
    var s, o := NormLower(subj), NormalizeObjectLabel(obj);
    var p := FixPredicate(pred, s, o);
    assert StandardizeTriplet(subj, pred, obj) ==
      if DropImplausible(s, p, o) then None else Some(Triplet(s, if p == "trên sân" then "nằm trên" else p, o));
    NormLowerIdempotent(subj);
    NormalizeObjectLabelIdempotent(obj);
    FixPredicateOnNormal(pred, s, o);
    assert p == RewrittenPredicate(subj, pred, obj);
    FixPredicateNormal(pred, s, o);
    NormalIsFixed(p);
    NormalizeObjectLabelSpec(obj);
    NormalIsFixed(o);
    DropImplausibleOnNormal(s, p, o);
  }

  /** The predicate the rules hand to the implausibility check is normal. */
  lemma RewrittenPredicateNormal(subj: string, pred: string, obj: string)
    ensures Normal(RewrittenPredicate(subj, pred, obj))
  {
    var q := Replace(NormLower(pred));
    NormLowerIsNormal(pred);
    ReplaceNormal(NormLower(pred));
    RewriteRange(q, NormLower(subj), NormalizeObjectLabel(obj));
    RuleVerbsNormal();
  }

  lemma FinishNormal(s: string, p: string, o: string)
    requires Normal(s) && Normal(p) && Normal(o)
    ensures var r := Finish(s, p, o);
      r.Some? ==> Normal(r.value.subj) && Normal(r.value.pred) && Normal(r.value.obj)
  {
    NormalNamTren();
  }

  /** A kept triplet consists of normal strings: the output is already standardised. */
  lemma StandardizeTripletNormal(subj: string, pred: string, obj: string)
    ensures var r := StandardizeTriplet(subj, pred, obj);
      r.Some? ==> Normal(r.value.subj) && Normal(r.value.pred) && Normal(r.value.obj)
  {
    StandardizeTripletFinish(subj, pred, obj);
    RewrittenPredicateNormal(subj, pred, obj);
    NormLowerIsNormal(subj);
    NormalizeObjectLabelSpec(obj);
    FinishNormal(NormLower(subj), RewrittenPredicate(subj, pred, obj), NormalizeObjectLabel(obj));
  }

  /** On an already normalised subject and object, `fix_predicate` is the rule chain. */
  lemma FixPredicateOnNormal(pred: string, s: string, o: string)
    requires NormLower(s) == s && NormalizeObjectLabel(o) == o
    ensures FixPredicate(pred, s, o) == Rewrite(Replace(NormLower(pred)), s, o)
  {
  }

  /** On an already normalised triple, `drop_implausible` is the table lookup. */
  lemma DropImplausibleOnNormal(s: string, p: string, o: string)
    requires NormLower(s) == s && NormLower(p) == p && NormLower(o) == o
    ensures DropImplausible(s, p, o) == Implausible(s, p, o)
  {
  }

  lemma NoLineBreakAfterNormLower(s: string)
    requires '\n' !in s
    ensures '\n' !in NormLower(s)
  {
    var t := Strip(s);
    assert forall c | c in t :: c in s;
    forall i | 0 <= i < |t| ensures NormLower(s)[i] != '\n' {
      assert t[i] in t;
    }
  }

  /** Anything "gần" (near) a piece of clothing is rejected, whatever the subject (on one line). */
  lemma NearClothingRejected(subj: string, verb: string, obj: string)
    requires '\n' !in subj && NormLower(verb) == "gần" && NormalizeObjectLabel(obj) in ClothingPattern
    ensures StandardizeTriplet(subj, verb, obj) == None
  {
    var s, o := NormLower(subj), NormalizeObjectLabel(obj);
    var p := RewrittenPredicate(subj, verb, obj);
    assert p == "gần" by {
      assert Replace("gần") == "gần";
      RewriteOther("gần", s, o);
    }
    assert Finish(s, p, o) == None by {
      NoLineBreakAfterNormLower(subj);
      assert Matches(ImplausiblePatterns[0], s, "gần", o);
    }
    StandardizeTripletFinish(subj, verb, obj);
  }

  /** The third and fourth patterns can never fire: their subjects mention a ball and their
      object is a place, so "trên" has already been rewritten to "nằm trên" when the check runs. */
  lemma DeadPatterns(s: string, p: string, o: string)
    ensures forall k | 2 <= k < 4 :: !Matches(ImplausiblePatterns[k], s, Rewrite(p, s, o), o)
  {
    if (s == "găng bóng chày" || s == "sân bóng chày") && o == "sân bóng đá" {
      BallSubject(s);
      assert o in PlaceTargets;
      RewriteRange(p, s, o);
      if p in {"trên", "trên sân"} {
        RewriteOn(p, s, o);
      }
      assert Rewrite(p, s, o) != "trên";
    }
  }

  /** Both subjects of those patterns mention a ball. */
  lemma BallSubject(s: string)
    requires s == "găng bóng chày" || s == "sân bóng chày"
    ensures Contains(s, "bóng")
  {
    if s == "găng bóng chày" {
      assert "bóng" <= s[5..];
    } else {
      assert "bóng" <= s[4..];
    }
  }

  /** A baseball glove "trên" (on) a soccer field, the triple of the third pattern, is kept
      with its predicate rewritten: by `StandardizeTripletFinish` this is what
      `standardize_triplet` does with any input that normalises to this triple. */
  lemma GloveOnSoccerFieldKept()
    ensures var s, o := "găng bóng chày", "sân bóng đá";
      Finish(s, Rewrite(Replace("trên"), s, o), o) == Some(Triplet(s, "nằm trên", o))
  {
    var s, o := "găng bóng chày", "sân bóng đá";
    assert Replace("trên") == "trên";
    assert Rewrite("trên", s, o) == "nằm trên" by {
      assert "bóng" <= s[5..];
    }
    assert !Implausible(s, "nằm trên", o);
  }

  /** The second pattern does fire: a tennis ball "trên" (on) a player is rejected. */
  lemma TennisBallOnPlayerRejected()
    ensures var s, o := "bóng tennis", "cầu thủ"; Finish(s, Rewrite(Replace("trên"), s, o), o) == None
  {
    var s, o := "bóng tennis", "cầu thủ";
    assert Replace("trên") == "trên";
    assert Rewrite("trên", s, o) == "trên" by {
      assert o !in PlaceTargets;
    }
    assert Matches(ImplausiblePatterns[1], s, "trên", o);
  }

  /** A label that starts with "găng" (glove) is neither clothing nor footwear. */
  lemma GloveIsNotWorn(o: string)
    requires StartsWith(o, "găng")
    ensures o !in WearTargets && o !in ShoeTargets
  {
    assert o[1] == "găng"[1] == 'ă';
  }

  /** Applying the replacements and the rules a second time changes nothing. */
  lemma RewriteStable(q: string, s: string, o: string)
    ensures var p := Rewrite(Replace(q), s, o); Rewrite(Replace(p), s, o) == p
  {
    if StartsWith(o, "găng") {
      GloveIsNotWorn(o);
    }
  }

  /** No pattern rejects "nằm trên" (lying on). */
  lemma LyingOnPlausible(s: string, o: string)
    ensures !Implausible(s, "nằm trên", o)
  {
  }

  /** The last two steps, fed their own output with the rules applied once more, give it back. */
  lemma FinishIdempotent(s: string, q: string, o: string)
    ensures var r := Finish(s, Rewrite(Replace(q), s, o), o);
      r.Some? ==> Finish(s, Rewrite(Replace(r.value.pred), s, o), o) == r
  {
    var p := Rewrite(Replace(q), s, o);
    var r := Finish(s, p, o);
    if r.Some? {
      RewriteStable(q, s, o);
      if r.value.pred != p {
        RewriteOther("nằm trên", s, o);
        LyingOnPlausible(s, o);
      }
    }
  }

  lemma RewrittenPredicateOnNormal(s: string, pred: string, o: string)
    requires NormLower(s) == s && NormalizeObjectLabel(o) == o
    ensures RewrittenPredicate(s, pred, o) == Rewrite(Replace(NormLower(pred)), s, o)
  {
  }

  /** On its own output the triple standardiser is the identity: a kept triplet, fed back in,
      is kept unchanged. */
  lemma StandardizeTripletIdempotent(subj: string, pred: string, obj: string)
    ensures var r := StandardizeTriplet(subj, pred, obj);
      r.Some? ==> StandardizeTriplet(r.value.subj, r.value.pred, r.value.obj) == r
  {
    var s, o := NormLower(subj), NormalizeObjectLabel(obj);
    var r := StandardizeTriplet(subj, pred, obj);
    StandardizeTripletFinish(subj, pred, obj);
    assert r == Finish(s, Rewrite(Replace(NormLower(pred)), s, o), o) by {
      NormLowerIdempotent(subj);
      NormalizeObjectLabelIdempotent(obj);
      RewrittenPredicateOnNormal(s, pred, o);
    }
    if r.Some? {
      var p2 := r.value.pred;
      assert NormLower(p2) == p2 by {
        StandardizeTripletNormal(subj, pred, obj);
        NormalIsFixed(p2);
      }
      assert StandardizeTriplet(s, p2, o) == Finish(s, Rewrite(Replace(p2), s, o), o) by {
        StandardizeTripletFinish(s, p2, o);
        NormLowerIdempotent(subj);
        NormalizeObjectLabelIdempotent(obj);
        RewrittenPredicateOnNormal(s, p2, o);
      }
      FinishIdempotent(s, NormLower(pred), o);
    }
  }

  // ---------------------------------------------------------------------------
  // Collecting the kept triplets of a list

  /** What `f` keeps from `xs`, in order: the shape of both processing loops. */
  function Collect<A, B>(f: A -> Option<B>, xs: seq<A>): (r: seq<B>)
    ensures |r| <= |xs|
  {
    if xs == [] then []
    else Collect(f, DropLast(xs)) + (if f(Last(xs)).Some? then [f(Last(xs)).value] else [])
  }

  lemma CollectSnoc<A, B>(f: A -> Option<B>, xs: seq<A>, x: A)
    ensures Collect(f, xs + [x]) == Collect(f, xs) + (if f(x).Some? then [f(x).value] else [])
  {
    assert DropLast(xs + [x]) == xs && Last(xs + [x]) == x;
  }

  lemma CollectStep<A, B>(f: A -> Option<B>, xs: seq<A>, i: nat)
    requires i < |xs|
    ensures Collect(f, xs[..i + 1]) == Collect(f, xs[..i]) + (if f(xs[i]).Some? then [f(xs[i]).value] else [])
  {
    assert xs[..i + 1] == xs[..i] + [xs[i]];
    CollectSnoc(f, xs[..i], xs[i]);
  }

  /** One more element of a loop that collects what `f` keeps, `y` being what `f` makes of it. */
  lemma CollectPush<A, B>(f: A -> Option<B>, xs: seq<A>, i: nat, acc: seq<B>, y: Option<B>)
    requires i < |xs| && acc == Collect(f, xs[..i]) && y == f(xs[i])
    ensures Collect(f, xs[..i + 1]) == if y.Some? then acc + [y.value] else acc
  {
    CollectStep(f, xs, i);
  }

  /** Everything collected is what `f` makes of some element. */
  lemma {:induction false} CollectSound<A, B>(f: A -> Option<B>, xs: seq<A>)
    ensures forall y | y in Collect(f, xs) :: exists x | x in xs :: f(x) == Some(y)
  {
    if xs != [] {
      CollectSound(f, DropLast(xs));
      assert forall x | x in DropLast(xs) :: x in xs;
    }
  }

  /** When `f` keeps every element as `h` of it, the result is `h` applied to each element. */
  lemma {:induction false} CollectTotal<A, B>(f: A -> Option<B>, h: A -> B, xs: seq<A>)
    requires forall x | x in xs :: f(x) == Some(h(x))
    ensures var r := Collect(f, xs); |r| == |xs| && forall k | 0 <= k < |xs| :: r[k] == h(xs[k])
  {
    if xs != [] {
      assert forall x | x in DropLast(xs) :: x in xs;
      CollectTotal(f, h, DropLast(xs));
    }
  }

  /** Collecting with `g` after filtering with `f` is collecting with `g` directly, when `g`
      drops what `f` drops and sees no difference between an element and what `f` made of it. */
  lemma {:induction false} CollectAfter<A, B>(f: A -> Option<A>, g: A -> Option<B>, xs: seq<A>)
    requires forall x | x in xs :: f(x).None? ==> g(x).None?
    requires forall x | x in xs :: f(x).Some? ==> g(f(x).value) == g(x)
    ensures Collect(g, Collect(f, xs)) == Collect(g, xs)
  {
    if xs != [] {
      var prev, x := DropLast(xs), Last(xs);
      assert forall y | y in prev :: y in xs;
      CollectAfter(f, g, prev);
      assert x in xs;
      if f(x).Some? {
        assert Collect(f, xs) == Collect(f, prev) + [f(x).value];
        CollectSnoc(g, Collect(f, prev), f(x).value);
      } else {
        assert Collect(f, xs) == Collect(f, prev);
      }
    }
  }

  // ---------------------------------------------------------------------------
  // Simple triplet lists

  /** One dict of a simple triplet list; only its string-valued entries are kept. */
  type Fields = map<string, string>

  /** `d.get(k1) or d.get(k2) or ""`: a missing or empty first key falls back to the second. */
  function Pick(d: Fields, k1: string, k2: string): (r: string)
    ensures k1 in d && d[k1] != "" ==> r == d[k1]
    ensures (k1 !in d || d[k1] == "") && k2 in d ==> r == d[k2]
    ensures (k1 !in d || d[k1] == "") && k2 !in d ==> r == ""
  {
    if k1 in d && d[k1] != "" then d[k1]
    else if k2 in d then d[k2]
    else ""
  }

  /** The triplet a simple dict standardises to, if it is kept. */
  function SimpleTriplet(d: Fields): Option<Triplet> {
    StandardizeTriplet(Pick(d, "subject", "subj"), Pick(d, "predicate", "pred"), Pick(d, "object", "obj"))
  }

  /** `process_simple_triplets`. */
  method ProcessSimpleTriplets(data: seq<Fields>) returns (out: seq<Triplet>)
    ensures out == Collect(SimpleTriplet, data)
  {
    out := [];
    for i := 0 to |data|
      invariant out == Collect(SimpleTriplet, data[..i])
    {
      var d := data[i];
      var subj := Pick(d, "subject", "subj");
      var pred := Pick(d, "predicate", "pred");
      var obj := Pick(d, "object", "obj");
      var std := StandardizeTriplet(subj, pred, obj);
      assert std == SimpleTriplet(d);
      CollectStep(SimpleTriplet, data, i);
      if std.Some? {
        out := out + [std.value];
      }
    }
    assert data[..|data|] == data;
  }

  /** A kept simple dict yields normal strings. */
  lemma SimpleTripletNormal(d: Fields)
    ensures var t := SimpleTriplet(d); t.Some? ==> Normal(t.value.subj) && Normal(t.value.pred) && Normal(t.value.obj)
  {
    StandardizeTripletNormal(Pick(d, "subject", "subj"), Pick(d, "predicate", "pred"), Pick(d, "object", "obj"));
  }

  /** Every triplet of the simple output is the standardisation of an input dict and holds
      normal strings only. */
  lemma SimpleTripletsSound(data: seq<Fields>)
    ensures forall t | t in Collect(SimpleTriplet, data) ::
      (exists d | d in data :: SimpleTriplet(d) == Some(t)) && Normal(t.subj) && Normal(t.pred) && Normal(t.obj)
  {
    CollectSound(SimpleTriplet, data);
    forall t | t in Collect(SimpleTriplet, data) ensures Normal(t.subj) && Normal(t.pred) && Normal(t.obj) {
      assert exists d | d in data :: SimpleTriplet(d) == Some(t);
      var d :| d in data && SimpleTriplet(d) == Some(t);
      SimpleTripletNormal(d);
    }
  }

  /** The output dict of a kept triplet. */
  function AsFields(t: Triplet): Fields {
    map["subject" := t.subj, "predicate" := t.pred, "object" := t.obj]
  }

  /** The simple output as the list of dicts that is written out. */
  function Written(ts: seq<Triplet>): (r: seq<Fields>)
    ensures |r| == |ts|
  {
    if ts == [] then [] else Written(DropLast(ts)) + [AsFields(Last(ts))]
  }

  /** Triplets that each read back as themselves are reproduced one for one. */
  lemma {:induction false} CollectWritten(f: Fields -> Option<Triplet>, ts: seq<Triplet>)
    requires forall t | t in ts :: f(AsFields(t)) == Some(t)
    ensures Collect(f, Written(ts)) == ts
  {
    if ts != [] {
      var prev, t := DropLast(ts), Last(ts);
      assert ts == prev + [t];
      assert Written(ts) == Written(prev) + [AsFields(t)];
      assert f(AsFields(t)) == Some(t) by { assert t in ts; }
      forall x | x in prev ensures f(AsFields(x)) == Some(x) {
        assert x in ts;
      }
      CollectWritten(f, prev);
      CollectSnoc(f, Written(prev), AsFields(t));
    }
  }

  /** Reading a written triplet back picks up its own fields. */
  lemma PickOwn(t: Triplet)
    ensures var d := AsFields(t);
      SimpleTriplet(d) == StandardizeTriplet(t.subj, t.pred, t.obj)
  {
    var d := AsFields(t);
    assert "subject" in d && d["subject"] == t.subj;
    assert "predicate" in d && d["predicate"] == t.pred;
    assert "object" in d && d["object"] == t.obj;
    assert "subj" !in d && "pred" !in d && "obj" !in d;
  }

  /** Running the standardiser over its own simple output gives the same output. */
  lemma SimpleTripletsIdempotent(data: seq<Fields>)
    ensures var out := Collect(SimpleTriplet, data); Collect(SimpleTriplet, Written(out)) == out
  {
    var out := Collect(SimpleTriplet, data);
    CollectSound(SimpleTriplet, data);
    forall t | t in out ensures SimpleTriplet(AsFields(t)) == Some(t) {
      var d :| d in data && SimpleTriplet(d) == Some(t);
      PickOwn(t);
      StandardizeTripletIdempotent(Pick(d, "subject", "subj"), Pick(d, "predicate", "pred"), Pick(d, "object", "obj"));
    }
    CollectWritten(SimpleTriplet, out);
  }

  // ---------------------------------------------------------------------------
  // Per-image (Visual Genome style) annotations

  /** `normalize_object_label((obj.get("names") or [""])[0])`. */
  function StdLabel(o: Obj): string {
    NormalizeObjectLabel(if |o.names| == 0 then "" else o.names[0])
  }

  /** The objects with each one's `names` replaced by the single label `f` gives it; ids and
      boxes untouched. */
  function Relabel(f: Obj -> string, objs: seq<Obj>): (r: seq<Obj>)
    ensures |r| == |objs|
    ensures forall k | 0 <= k < |objs| :: r[k] == objs[k].(names := [f(objs[k])])
  {
    if objs == [] then [] else Relabel(f, DropLast(objs)) + [Last(objs).(names := [f(Last(objs))])]
  }

  lemma RelabelStep(f: Obj -> string, objs: seq<Obj>, i: nat)
    requires i < |objs|
    ensures Relabel(f, objs[..i + 1]) == Relabel(f, objs[..i]) + [objs[i].(names := [f(objs[i])])]
  {
    assert DropLast(objs[..i + 1]) == objs[..i] && Last(objs[..i + 1]) == objs[i];
  }

  /** The objects of an image after the first loop of `process_vg_like`. */
  function StdObjects(objs: seq<Obj>): seq<Obj> {
    Relabel(StdLabel, objs)
  }

  /** The standardised label is the label the id-to-name map records for the object. */
  lemma StdLabelIsName(o: Obj)
    ensures Name(o.(names := [StdLabel(o)])) == StdLabel(o)
    ensures Normal(StdLabel(o)) && StdLabel(o) !in Synonyms
  {
    NormalizeObjectLabelSpec(if |o.names| == 0 then "" else o.names[0]);
    NormalIsFixed(StdLabel(o));
  }

  /** The empty label, which a missing id looks up, is normal and no synonym. */
  lemma EmptyLabelCanonical()
    ensures Normal("") && "" !in Synonyms
  {
  }

  /** Every object of a relabelled list is one of the input objects with its new label. */
  lemma RelabelMember(f: Obj -> string, objs: seq<Obj>, o: Obj)
    requires o in Relabel(f, objs)
    ensures exists k | 0 <= k < |objs| :: o == objs[k].(names := [f(objs[k])])
  {
    var k :| 0 <= k < |objs| && Relabel(f, objs)[k] == o;
  }

  /** Every name the map of standardised objects hands out is normal and not a synonym. */
  lemma StdLabelsNormal(objs: seq<Obj>, id: int)
    ensures var l := LabelOf(StdObjects(objs), id); Normal(l) && l !in Synonyms
  {
    var std := StdObjects(objs);
    var m := IdToName(std);
    if id in m {
      IdToNameLabels(std);
      assert m[id] in AllNames(std);
      var o' :| o' in std && m[id] == Name(o');
      RelabelMember(StdLabel, objs, o');
      var k :| 0 <= k < |objs| && o' == objs[k].(names := [StdLabel(objs[k])]);
      StdLabelIsName(objs[k]);
    } else {
      EmptyLabelCanonical();
    }
  }

  /** What `standardize_triplet` makes of one relationship, its ids looked up in the map. */
  function RelTriplet(objs: seq<Obj>): Rel -> Option<Triplet> {
    (x: Rel) => StandardizeTriplet(LabelOf(objs, x.subjectId), x.pred, LabelOf(objs, x.objectId))
  }

  /** The relationship kept, with its predicate overwritten by the standardised one. */
  function RelKept(objs: seq<Obj>): Rel -> Option<Rel> {
    (x: Rel) => match RelTriplet(objs)(x)
         case None => None
         case Some(t) => Some(x.(pred := t.pred))
  }

  /** One output element of `process_vg_like`. */
  function StandardizeImage(img: Image): Image {
    var objs := StdObjects(img.objects);
    Image(img.imageId, objs, Collect(RelKept(objs), img.relationships), Collect(RelTriplet(objs), img.relationships))
  }

  /** A kept relationship keeps its ids; and on a relationship it already standardised the
      standardiser changes nothing and yields the same triplet. */
  lemma RelKeptStable(objs: seq<Obj>, x: Rel)
    ensures var std := StdObjects(objs); var r := RelKept(std)(x);
      && (r.None? <==> RelTriplet(std)(x).None?)
      && (r.Some? ==> r.value.subjectId == x.subjectId && r.value.objectId == x.objectId)
      && (r.Some? ==> RelKept(std)(r.value) == r && RelTriplet(std)(r.value) == RelTriplet(std)(x))
  {
    var std := StdObjects(objs);
    var ls, lo := LabelOf(std, x.subjectId), LabelOf(std, x.objectId);
    var t := StandardizeTriplet(ls, x.pred, lo);
    if t.Some? {
      StdLabelsNormal(objs, x.subjectId);
      StdLabelsNormal(objs, x.objectId);
      assert NormLower(ls) == ls by { NormalIsFixed(ls); }
      assert NormalizeObjectLabel(lo) == lo by { NormalizeObjectLabelPassThrough(lo); }
      assert t.value.subj == ls && t.value.obj == lo by { StandardizeTripletFinish(ls, x.pred, lo); }
      StandardizeTripletIdempotent(ls, x.pred, lo);
    }
  }

  /** A relationship the standardiser kept yields the triplet of its own names. */
  lemma KeptIsItsTriplet(objs: seq<Obj>, x: Rel, y: Rel)
    requires RelKept(StdObjects(objs))(x) == Some(y)
    ensures RelTriplet(StdObjects(objs))(y) == Some(TripletOf(StdObjects(objs), y))
  {
    var std := StdObjects(objs);
    RelKeptStable(objs, x);
    var ls, lo := LabelOf(std, x.subjectId), LabelOf(std, x.objectId);
    StdLabelsNormal(objs, x.subjectId);
    StdLabelsNormal(objs, x.objectId);
    assert NormLower(ls) == ls by { NormalIsFixed(ls); }
    assert NormalizeObjectLabel(lo) == lo by { NormalizeObjectLabelPassThrough(lo); }
    StandardizeTripletFinish(ls, x.pred, lo);
  }

  /** Re-standardising the kept relationships yields the same triplets as standardising all. */
  lemma KeptTripletsAgain(objs: seq<Obj>, rels: seq<Rel>)
    ensures var std := StdObjects(objs);
      Collect(RelTriplet(std), Collect(RelKept(std), rels)) == Collect(RelTriplet(std), rels)
  {
    var std := StdObjects(objs);
    forall x | x in rels
      ensures RelKept(std)(x).None? ==> RelTriplet(std)(x).None?
      ensures RelKept(std)(x).Some? ==> RelTriplet(std)(RelKept(std)(x).value) == RelTriplet(std)(x)
    {
      RelKeptStable(objs, x);
    }
    CollectAfter(RelKept(std), RelTriplet(std), rels);
  }

  /** Every kept relationship standardises to the triplet of its own names. */
  lemma KeptAllLabelled(objs: seq<Obj>, rels: seq<Rel>)
    ensures var std := StdObjects(objs);
      forall y | y in Collect(RelKept(std), rels) :: RelTriplet(std)(y) == Some(TripletOf(std, y))
  {
    var std := StdObjects(objs);
    CollectSound(RelKept(std), rels);
    forall y | y in Collect(RelKept(std), rels) ensures RelTriplet(std)(y) == Some(TripletOf(std, y)) {
      var x :| x in rels && RelKept(std)(x) == Some(y);
      KeptIsItsTriplet(objs, x, y);
    }
  }

  /** The triplets of a standardised image are exactly the relationships it kept, spelled
      with the names of their objects: one triplet per kept relationship, in order. */
  lemma StandardizeImageTriplets(img: Image)
    ensures var r := StandardizeImage(img);
      && |r.triplets| == |r.relationships|
      && forall k | 0 <= k < |r.relationships| :: r.triplets[k] == TripletOf(r.objects, r.relationships[k])
  {
    var std := StdObjects(img.objects);
    var kept := Collect(RelKept(std), img.relationships);
    KeptTripletsAgain(img.objects, img.relationships);
    KeptAllLabelled(img.objects, img.relationships);
    CollectTotal(RelTriplet(std), (y: Rel) => TripletOf(std, y), kept);
  }

  /** A kept relationship is the input relationship with another predicate. */
  lemma KeptIds(objs: seq<Obj>, x: Rel, y: Rel)
    requires RelKept(objs)(x) == Some(y)
    ensures y == x.(pred := y.pred)
  {
  }

  /** Every kept relationship links two objects some input relationship linked. */
  lemma KeptFromInput(objs: seq<Obj>, rels: seq<Rel>)
    ensures forall y | y in Collect(RelKept(objs), rels) ::
      exists x | x in rels :: x.subjectId == y.subjectId && x.objectId == y.objectId
  {
    CollectSound(RelKept(objs), rels);
    forall y | y in Collect(RelKept(objs), rels)
      ensures exists x | x in rels :: x.subjectId == y.subjectId && x.objectId == y.objectId
    {
      var x :| x in rels && RelKept(objs)(x) == Some(y);
      KeptIds(objs, x, y);
    }
  }

  /** Standardisation keeps the image id and every object, with its id and its box. */
  lemma StandardizeImageKeepsObjects(img: Image)
    ensures var r := StandardizeImage(img);
      && r.imageId == img.imageId
      && |r.objects| == |img.objects|
      && forall k | 0 <= k < |img.objects| ::
           r.objects[k].id == img.objects[k].id && r.objects[k].box == img.objects[k].box
  {
  }

  /** Standardisation keeps relationships only from the input, with their ids. */
  lemma StandardizeImageKeepsRelations(img: Image)
    ensures var r := StandardizeImage(img);
      && |r.relationships| <= |img.relationships|
      && forall y | y in r.relationships :: exists x | x in img.relationships ::
           x.subjectId == y.subjectId && x.objectId == y.objectId
  {
    KeptFromInput(StdObjects(img.objects), img.relationships);
  }

  /** Standardising an image a second time changes nothing. */
  lemma StandardizeImageIdempotent(img: Image)
    ensures StandardizeImage(StandardizeImage(img)) == StandardizeImage(img)
  {
    var std := StdObjects(img.objects);
    assert StdObjects(std) == std by {
      forall k | 0 <= k < |std| ensures std[k].(names := [StdLabel(std[k])]) == std[k] {
        StdLabelIsName(img.objects[k]);
        NormalizeObjectLabelIdempotent(if |img.objects[k].names| == 0 then "" else img.objects[k].names[0]);
      }
    }
    var rels := img.relationships;
    forall x | x in rels
      ensures RelKept(std)(x).None? ==> RelKept(std)(x).None?
      ensures RelKept(std)(x).Some? ==> RelKept(std)(RelKept(std)(x).value) == RelKept(std)(x)
      ensures RelKept(std)(x).None? ==> RelTriplet(std)(x).None?
      ensures RelKept(std)(x).Some? ==> RelTriplet(std)(RelKept(std)(x).value) == RelTriplet(std)(x)
    {
      RelKeptStable(img.objects, x);
    }
    CollectAfter(RelKept(std), RelKept(std), rels);
    CollectAfter(RelKept(std), RelTriplet(std), rels);
  }

  /** One more object of the object loop: it is relabelled and its label recorded. */
  lemma StdObjectsStep(objs: seq<Obj>, i: nat, out: seq<Obj>, m: map<int, string>)
    requires i < |objs| && out == StdObjects(objs[..i]) && m == IdToName(out)
    ensures var o := objs[i]; var o' := o.(names := [StdLabel(o)]);
      && StdObjects(objs[..i + 1]) == out + [o']
      && IdToName(out + [o']) == m[o.id := StdLabel(o)]
  {
    var o := objs[i];
    var o' := o.(names := [StdLabel(o)]);
    RelabelStep(StdLabel, objs, i);
    IdToNameSnoc(out, o');
    StdLabelIsName(o);
  }

  /** The object loop of `process_vg_like`: normalise each object's names and record the
      label under its id, a later object overriding an earlier one with the same id. */
  method StandardizeObjects(objs: seq<Obj>) returns (out: seq<Obj>, idToName: map<int, string>)
    ensures out == StdObjects(objs)
    ensures idToName == IdToName(out)
  {
    out, idToName := [], map[];
    for i := 0 to |objs|
      invariant out == StdObjects(objs[..i])
      invariant idToName == IdToName(out)
    {
      var o := objs[i];
      var name := NormalizeObjectLabel(if |o.names| == 0 then "" else o.names[0]);
      var o' := o.(names := [name]);
      StdObjectsStep(objs, i, out, idToName);
      idToName := idToName[o.id := name];
      out := out + [o'];
    }
    assert objs[..|objs|] == objs;
  }

  /** The relationship loop of `process_vg_like`: look both names up, standardise the triple
      and keep the relationship, with the new predicate, when the triple survives. */
  method StandardizeRelations(objects: seq<Obj>, idToName: map<int, string>, rels: seq<Rel>)
    returns (kept: seq<Rel>, triplets: seq<Triplet>)
    requires idToName == IdToName(objects)
    ensures kept == Collect(RelKept(objects), rels)
    ensures triplets == Collect(RelTriplet(objects), rels)
  {
    triplets, kept := [], [];
    assert rels[..0] == [];
    for i := 0 to |rels|
      invariant triplets == Collect(RelTriplet(objects), rels[..i])
      invariant kept == Collect(RelKept(objects), rels[..i])
    {
      var x := rels[i];
      var sName := if x.subjectId in idToName then idToName[x.subjectId] else "";
      var oName := if x.objectId in idToName then idToName[x.objectId] else "";
      var std := StandardizeTriplet(sName, x.pred, oName);
      var keep := if std.Some? then Some(x.(pred := std.value.pred)) else None;
      assert std == RelTriplet(objects)(x) by {
        assert sName == LabelOf(objects, x.subjectId) && oName == LabelOf(objects, x.objectId);
      }
      CollectPush(RelTriplet(objects), rels, i, triplets, std);
      CollectPush(RelKept(objects), rels, i, kept, keep);
      if std.Some? {
        triplets := triplets + [std.value];
        kept := kept + [x.(pred := std.value.pred)];
      }
    }
    assert rels[..|rels|] == rels;
  }

  /** One image of `process_vg_like`. */
  method ProcessImage(img: Image) returns (r: Image)
    ensures r == StandardizeImage(img)
  {
    var objects, idToName := StandardizeObjects(img.objects);
    var kept, triplets := StandardizeRelations(objects, idToName, img.relationships);
    r := Image(img.imageId, objects, kept, triplets);
  }

  /** `process_vg_like`. */
  method ProcessVgLike(data: seq<Image>) returns (out: seq<Image>)
    ensures out == MapSeq(StandardizeImage, data)
  {
    out := [];
    for i := 0 to |data|
      invariant out == MapSeq(StandardizeImage, data[..i])
    {
      var img := ProcessImage(data[i]);
      MapSeqStep(StandardizeImage, data, i);
      out := out + [img];
    }
    assert data[..|data|] == data;
  }

  // ---------------------------------------------------------------------------
  // The input document and `standardize_file`

  /** One element of the loaded list, read both ways the script may read it: the keys it
      has, its string entries as a triplet dict, and its entries as a per-image annotation
      (a missing `objects` or `relationships` reads as an empty list). */
  datatype Item = Item(keys: set<string>, fields: Fields, image: Image)

  function ItemFields(it: Item): Fields {
    it.fields
  }

  function ItemImage(it: Item): Image {
    it.image
  }

  /** The loaded JSON value: a list, a dict (its keys, and the per-image list it holds under
      "annotations" when it has that key), or any other value. */
  datatype Input =
    | InputList(items: seq<Item>)
    | InputDict(keys: set<string>, annotations: seq<Image>)
    | InputOther

  datatype InputFormat = SimpleFormat | VgFormat | UnknownFormat

  /** `detect_format`: only the first element of a non-empty list is inspected, and the
      per-image keys are checked before the triplet keys. */
  function DetectInputFormat(data: Input): (f: InputFormat)
    ensures f == VgFormat <==>
      data.InputList? && |data.items| > 0 && {"objects", "relationships"} <= data.items[0].keys
    ensures f == SimpleFormat <==>
      data.InputList? && |data.items| > 0 && !({"objects", "relationships"} <= data.items[0].keys) &&
      {"subject", "predicate", "object"} <= data.items[0].keys
    ensures !data.InputList? || |data.items| == 0 ==> f == UnknownFormat
  {
    if data.InputList? && |data.items| > 0 then
      var item := data.items[0];
      if "objects" in item.keys && "relationships" in item.keys then VgFormat
      else if "subject" in item.keys && "predicate" in item.keys && "object" in item.keys then SimpleFormat
      else UnknownFormat
    else UnknownFormat
  }

  /** What `standardize_file` writes: a triplet list or a per-image list. */
  datatype Output = SimpleOutput(triplets: seq<Triplet>) | VgOutput(images: seq<Image>)

  function OutputLength(out: Output): nat {
    match out
    case SimpleOutput(ts) => |ts|
    case VgOutput(images) => |images|
  }

  /** The written output with the metadata `standardize_file` returns (the two paths aside). */
  datatype Report = Report(output: Output, detectedFormat: string, numItems: nat)

  /** A wrapped per-image list: a dict with an "annotations" key. */
  predicate Wrapped(data: Input) {
    data.InputDict? && "annotations" in data.keys
  }

  /** `standardize_file` after the JSON has been read: dispatch on the detected format, fall
      back to a dict's "annotations" list, and reject anything else. */
  method StandardizeFile(data: Input) returns (r: Result<Report>)
    ensures r.Failure? <==> DetectInputFormat(data) == UnknownFormat && !Wrapped(data)
    ensures r.Failure? ==> r.error == UnsupportedFormat
    ensures DetectInputFormat(data) == SimpleFormat ==>
      var ts := Collect(SimpleTriplet, MapSeq(ItemFields, data.items));
      r == Ok(Report(SimpleOutput(ts), "simple", |ts|))
    ensures DetectInputFormat(data) == VgFormat ==>
      r == Ok(Report(VgOutput(MapSeq(StandardizeImage, MapSeq(ItemImage, data.items))), "vg", |data.items|))
    ensures DetectInputFormat(data) == UnknownFormat && Wrapped(data) ==>
      r == Ok(Report(VgOutput(MapSeq(StandardizeImage, data.annotations)), "fallback", |data.annotations|))
    ensures r.Ok? ==> r.value.numItems == OutputLength(r.value.output)
  {
    var fmt := DetectInputFormat(data);
    var output: Output;
    if fmt == SimpleFormat {
      var fields := MapSeq(ItemFields, data.items);
      var ts := ProcessSimpleTriplets(fields);
      output := SimpleOutput(ts);
    } else if fmt == VgFormat {
      var images := MapSeq(ItemImage, data.items);
      var out := ProcessVgLike(images);
      output := VgOutput(out);
    } else if data.InputDict? && "annotations" in data.keys {
      var out := ProcessVgLike(data.annotations);
      output := VgOutput(out);
    } else {
      return Failure(UnsupportedFormat);
    }
    var name := if fmt == SimpleFormat then "simple" else if fmt == VgFormat then "vg" else "fallback";
    r := Ok(Report(output, name, OutputLength(output)));
  }
}
