/** Grouping findings into classes by what they say, and stopping a review that keeps repeating itself. */
module Clusters {
  import opened Options

  const OVERLAP_THRESHOLD: real := 0.5
  const MIN_SHARED_TOKENS: nat := 3

  type Tokens = set<nat>

  /** A finding of a round: its normalised words, category (0 when empty) and file (0 when empty). */
  datatype Entry = Entry(tokens: Tokens, category: nat, file: nat, round: int)

  /** The overlap coefficient of two token sets; 0 below the shared-token floor. */
  function Overlap(tokens: Tokens, member: Tokens): real {
    var small, large := if |member| < |tokens| then member else tokens, if |member| < |tokens| then tokens else member;
    var shared := |small * large|;
    if |small| == 0 || shared < MIN_SHARED_TOKENS then 0.0 else shared as real / |small| as real
  }

  /** Two token sets that belong together. */
  predicate Alike(a: Tokens, b: Tokens) {
    |a * b| >= 3 && 2 * |a * b| >= if |a| < |b| then |a| else |b|
  }

  lemma OverlapMeansAlike(a: Tokens, b: Tokens)
    ensures Overlap(a, b) >= OVERLAP_THRESHOLD <==> Alike(a, b)
    ensures Overlap(a, b) >= 0.0
  {
    assert a * b == b * a;
    var size := if |b| < |a| then |b| else |a|;
    if size == 0 {
      assert a == {} || b == {};
      assert a * b == {};
    } else {
      HalfMeansTwice(|a * b| as real, size as real);
    }
  }

  lemma HalfMeansTwice(x: real, y: real)
    requires x >= 0.0 && y > 0.0
    ensures x / y >= 0.0
    ensures x / y >= 0.5 <==> 2.0 * x >= y
  {
    var r := x / y;
    assert r * y == x;
    if r < 0.0 {
      ScaleKeepsOrder(r, 0.0, y);
    }
    if r < 0.5 {
      ScaleKeepsOrder(r, 0.5, y);
    } else if r > 0.5 {
      ScaleKeepsOrder(0.5, r, y);
    }
  }

  lemma ScaleKeepsOrder(a: real, b: real, y: real)
    requires a < b && y > 0.0
    ensures a * y < b * y
  {
  }

  /** The best overlap with any member; 0 when there is none. */
  function BestOf(members: seq<Tokens>, tokens: Tokens): real {
    if members == [] then 0.0
    else
      var before, last := BestOf(members[..|members| - 1], tokens), Overlap(tokens, members[|members| - 1]);
      if last > before then last else before
  }

  lemma {:induction false} BestOfIsReached(members: seq<Tokens>, tokens: Tokens)
    ensures forall i :: 0 <= i < |members| ==> Overlap(tokens, members[i]) <= BestOf(members, tokens)
    ensures BestOf(members, tokens) > 0.0 ==>
              exists i :: 0 <= i < |members| && Overlap(tokens, members[i]) == BestOf(members, tokens)
  {
    if members != [] {
      var rest := members[..|members| - 1];
      BestOfIsReached(rest, tokens);
      assert forall i :: 0 <= i < |rest| ==> members[i] == rest[i];
      var last := members[|members| - 1];
      if BestOf(members, tokens) > 0.0 && Overlap(tokens, last) <= BestOf(rest, tokens) {
        var i :| 0 <= i < |rest| && Overlap(tokens, rest[i]) == BestOf(rest, tokens);
        assert members[i] == rest[i];
      }
    }
  }

  // ----- classes as values -----

  datatype Group = Group(members: seq<Tokens>, category: nat, rounds: set<int>, files: seq<nat>)

  predicate Conflicting(a: nat, b: nat) {
    a != 0 && b != 0 && a != b
  }

  function Joined(g: Group, e: Entry): Group {
    Group(
      g.members + [e.tokens],
      if g.category == 0 then e.category else g.category,
      g.rounds + {e.round},
      if e.file == 0 || e.file in g.files then g.files else g.files + [e.file])
  }

  function Founded(e: Entry): Group {
    Joined(Group([], e.category, {}, []), e)
  }

  /** How well the entry fits a class; conflicting categories do not fit at all. */
  function Fit(g: Group, e: Entry): real {
    if Conflicting(g.category, e.category) then 0.0 else BestOf(g.members, e.tokens)
  }

  /** The first class among `groups[..n]` that fits best; None when none fits at all. */
  function Best(groups: seq<Group>, e: Entry, n: nat): (r: Option<nat>)
    requires n <= |groups|
    ensures r.Some? ==> r.value < n
  {
    if n == 0 then None
    else
      var before := Best(groups, e, n - 1);
      if Fit(groups[n - 1], e) > Score(groups, e, before) then Some(n - 1) else before
  }

  function Score(groups: seq<Group>, e: Entry, r: Option<nat>): real
    requires r.Some? ==> r.value < |groups|
  {
    if r.None? then 0.0 else Fit(groups[r.value], e)
  }

  /** The class `e` goes to, `|groups|` for a new one; None when it has no tokens. */
  function Place(groups: seq<Group>, e: Entry): (r: Option<nat>)
    ensures r.Some? ==> r.value <= |groups|
  {
    if e.tokens == {} then None
    else
      var best := Best(groups, e, |groups|);
      if best.Some? && Score(groups, e, best) >= OVERLAP_THRESHOLD then best else Some(|groups|)
  }

  function Placed(groups: seq<Group>, e: Entry): seq<Group> {
    var r := Place(groups, e);
    if r.None? then groups
    else if r.value < |groups| then groups[r.value := Joined(groups[r.value], e)]
    else groups + [Founded(e)]
  }

  /** The classes after all entries went to their place, one by one. */
  function Classify(entries: seq<Entry>): seq<Group> {
    if entries == [] then [] else Placed(Classify(entries[..|entries| - 1]), entries[|entries| - 1])
  }

  /** Where entry `i` went. */
  function PlaceOf(entries: seq<Entry>, i: nat): Option<nat>
    requires i < |entries|
  {
    Place(Classify(entries[..i]), entries[i])
  }

  lemma {:induction false} BestIsBest(groups: seq<Group>, e: Entry, n: nat)
    requires n <= |groups|
    ensures
      var r := Best(groups, e, n);
      && (forall j :: 0 <= j < n ==> Fit(groups[j], e) <= Score(groups, e, r))
      && (r.Some? ==> Score(groups, e, r) > 0.0 && forall j :: 0 <= j < r.value ==>
           Fit(groups[j], e) < Score(groups, e, r))
  {
    if n > 0 { BestIsBest(groups, e, n - 1); }
  }

  /**
   * An entry joins the first of the classes that fit it best, and founds one exactly
   * when none reaches the threshold.
   */
  lemma PlaceIsBest(groups: seq<Group>, e: Entry)
    requires e.tokens != {}
    ensures
      var k := Place(groups, e).value;
      && (k == |groups| <==> forall j :: 0 <= j < |groups| ==> Fit(groups[j], e) < OVERLAP_THRESHOLD)
      && (k < |groups| ==>
            && Fit(groups[k], e) >= OVERLAP_THRESHOLD
            && (forall j :: 0 <= j < |groups| ==> Fit(groups[j], e) <= Fit(groups[k], e))
            && (forall j :: 0 <= j < k ==> Fit(groups[j], e) < Fit(groups[k], e)))
  {
    BestIsBest(groups, e, |groups|);
  }

  /** One of the class's findings shares enough words with the entry, and their categories do not differ. */
  ghost predicate Welcomes(g: Group, e: Entry) {
    && (g.category == 0 || e.category == 0 || g.category == e.category)
    && exists i :: 0 <= i < |g.members| && Alike(e.tokens, g.members[i])
  }

  lemma FitsIffWelcomed(g: Group, e: Entry)
    ensures Fit(g, e) >= OVERLAP_THRESHOLD <==> Welcomes(g, e)
  {
    hide Overlap, Alike;
    BestOfIsReached(g.members, e.tokens);
    forall i | 0 <= i < |g.members|
      ensures Overlap(e.tokens, g.members[i]) >= OVERLAP_THRESHOLD <==> Alike(e.tokens, g.members[i])
    {
      OverlapMeansAlike(e.tokens, g.members[i]);
    }
  }

  /** An entry with words joins a class exactly when one welcomes it, and then only such a one. */
  lemma JoinsIffWelcomed(groups: seq<Group>, e: Entry)
    requires e.tokens != {}
    ensures
      var k := Place(groups, e).value;
      && (k < |groups| <==> exists j :: 0 <= j < |groups| && Welcomes(groups[j], e))
      && (k < |groups| ==> Welcomes(groups[k], e))
  {
    hide Fit, Welcomes, Best, Score;
    PlaceIsBest(groups, e);
    forall j | 0 <= j < |groups|
      ensures Fit(groups[j], e) >= OVERLAP_THRESHOLD <==> Welcomes(groups[j], e)
    {
      FitsIffWelcomed(groups[j], e);
    }
  }

  // ----- the class objects and the loop -----

  class FindingClass {
    var members: seq<Tokens>
    var category: nat
    var rounds: set<int>
    var files: seq<nat>

    constructor (category: nat)
      ensures View() == Group([], category, {}, [])
    {
      this.category := category;
      members, rounds, files := [], {}, [];
    }

    function View(): Group
      reads this
    {
      Group(members, category, rounds, files)
    }

    method Add(e: Entry)
      modifies this
      ensures View() == Joined(old(View()), e)
    {
      members := members + [e.tokens];
      rounds := rounds + {e.round};
      if e.file != 0 && e.file !in files {
        files := files + [e.file];
      }
      if category == 0 {
        category := e.category;
      }
    }

    method BestOverlap(tokens: Tokens) returns (best: real)
      ensures best == BestOf(members, tokens)
    {
      best := 0.0;
      for i := 0 to |members|
        invariant best == BestOf(members[..i], tokens)
      {
        assert members[..i + 1][..i] == members[..i];
        var score := Overlap(tokens, members[i]);
        if score > best { best := score; }
      }
      assert members[..|members|] == members;
    }
  }

  function Views(classes: seq<FindingClass>): (gs: seq<Group>)
    reads classes
    ensures |gs| == |classes| && forall k :: 0 <= k < |classes| ==> gs[k] == classes[k].View()
  {
    if classes == [] then [] else Views(classes[..|classes| - 1]) + [classes[|classes| - 1].View()]
  }

  predicate Distinct(classes: seq<FindingClass>) {
    forall i, j :: 0 <= i < j < |classes| ==> classes[i] != classes[j]
  }

  method FindPlace(classes: seq<FindingClass>, e: Entry) returns (r: Option<nat>)
    ensures r == Place(Views(classes), e)
  {
    hide BestOf, Overlap, Conflicting;
    if e.tokens == {} { return None; }
    var best: Option<nat> := None;
    var bestScore := 0.0;
    ghost var groups := Views(classes);
    for k := 0 to |classes|
      invariant best == Best(groups, e, k) && bestScore == Score(groups, e, best)
    {
      assert groups[k] == classes[k].View();
      BestIsBest(groups, e, k);
      if Conflicting(classes[k].category, e.category) { continue; }
      var score := classes[k].BestOverlap(e.tokens);
      if score > bestScore {
        bestScore := score;
        best := Some(k);
      }
    }
    if best.Some? && bestScore >= OVERLAP_THRESHOLD { return best; }
    r := Some(|classes|);
  }

  /** The grouping loop; the class objects hold exactly what placing the entries one by one gives. */
  method GroupFindings(entries: seq<Entry>) returns (classes: seq<FindingClass>)
    ensures Views(classes) == Classify(entries)
  {
    hide Classify;
    classes := [];
    ClassifyNothing();
    for i := 0 to |entries|
      invariant Distinct(classes) && forall k :: 0 <= k < |classes| ==> fresh(classes[k])
      invariant Views(classes) == Classify(entries[..i])
    {
      classes := PutInPlace(classes, entries[i]);
      ClassifyLast(entries[..i + 1]);
      assert entries[..i + 1][..i] == entries[..i];
    }
    assert entries[..|entries|] == entries;
  }

  method PutInPlace(classes: seq<FindingClass>, e: Entry) returns (after: seq<FindingClass>)
    requires Distinct(classes)
    modifies classes
    ensures Views(after) == Placed(old(Views(classes)), e)
    ensures Distinct(after) && forall k :: 0 <= k < |after| ==> after[k] in classes || fresh(after[k])
  {
    hide Place;
    ghost var before := Views(classes);
    after := classes;
    var r := FindPlace(classes, e);
    if r.Some? && r.value < |classes| {
      var c := classes[r.value];
      c.Add(e);
      forall k | 0 <= k < |classes|
        ensures Views(after)[k] == Placed(before, e)[k]
      {
        assert k != r.value ==> classes[k] != c;
      }
    } else if r.Some? {
      var c := new FindingClass(e.category);
      c.Add(e);
      after := classes + [c];
    }
  }

  // ----- what the grouping means -----

  /** `g2` is `g1` with later findings added. */
  predicate Extends(g1: Group, g2: Group) {
    && |g1.members| <= |g2.members| && g2.members[..|g1.members|] == g1.members
    && |g1.files| <= |g2.files| && g2.files[..|g1.files|] == g1.files
    && g1.rounds <= g2.rounds
    && (g1.category != 0 ==> g2.category == g1.category)
  }

  predicate AllExtend(a: seq<Group>, b: seq<Group>) {
    |a| <= |b| && forall k :: 0 <= k < |a| ==> Extends(a[k], b[k])
  }

  lemma ClassifyLast(entries: seq<Entry>)
    requires entries != []
    ensures Classify(entries) == Placed(Classify(entries[..|entries| - 1]), entries[|entries| - 1])
  {
  }

  lemma PlacedExtends(a: seq<Group>, groups: seq<Group>, e: Entry)
    requires AllExtend(a, groups)
    ensures AllExtend(a, Placed(groups, e))
  {
    hide Place;
    var gs := Placed(groups, e);
    forall k | 0 <= k < |a|
      ensures Extends(a[k], gs[k])
    {
      var g := groups[k];
      assert Extends(a[k], g);
      assert gs[k] == g || gs[k] == Joined(g, e);
    }
  }

  /** Later findings never move earlier ones: places stay, and each class only grows. */
  lemma {:induction false} PrefixStable(entries: seq<Entry>, n: nat)
    requires n <= |entries|
    ensures AllExtend(Classify(entries[..n]), Classify(entries))
    ensures forall i :: 0 <= i < n ==> PlaceOf(entries[..n], i) == PlaceOf(entries, i)
    decreases |entries|
  {
    hide Place, Placed, Classify, Extends;
    forall i | 0 <= i < n
      ensures PlaceOf(entries[..n], i) == PlaceOf(entries, i)
    {
      assert entries[..n][..i] == entries[..i];
    }
    if n == |entries| {
      assert entries[..n] == entries;
      ExtendsItself(Classify(entries));
    } else {
      var m := |entries| - 1;
      assert entries[..m][..n] == entries[..n];
      PrefixStable(entries[..m], n);
      ClassifyLast(entries);
      PlacedExtends(Classify(entries[..n]), Classify(entries[..m]), entries[m]);
    }
  }

  lemma ExtendsItself(a: seq<Group>)
    ensures AllExtend(a, a)
  {
  }

  /** Entry `i` went to class `k` and left its mark there. */
  predicate LeftItsMark(e: Entry, g: Group) {
    && e.round in g.rounds && e.tokens in g.members && (e.category != 0 ==> g.category == e.category)
    && (e.file != 0 ==> e.file in g.files)
  }

  ghost predicate HasEntryIn(entries: seq<Entry>, k: nat, round: int) {
    exists i :: 0 <= i < |entries| && PlaceOf(entries, i) == Some(k) && entries[i].round == round
  }

  /**
   * A class holds exactly the findings that went to it: its rounds are theirs, and
   * its category is the one they name.
   */
  lemma {:induction false} ClassesHoldTheirFindings(entries: seq<Entry>)
    ensures forall i :: 0 <= i < |entries| && PlaceOf(entries, i).Some? ==>
              PlaceOf(entries, i).value < |Classify(entries)|
                  && LeftItsMark(entries[i], Classify(entries)[PlaceOf(entries, i).value])
    ensures forall k: nat, r :: k < |Classify(entries)| && r in Classify(entries)[k].rounds ==>
              HasEntryIn(entries, k, r)
    decreases |entries|
  {
    hide Place, Placed, Classify, LeftItsMark;
    if entries == [] {
      ClassifyNothing();
    } else {
      var n := |entries| - 1;
      var init, e := entries[..n], entries[n];
      var before, after := Classify(init), Classify(entries);
      ClassesHoldTheirFindings(init);
      ClassifyLast(entries);
      JoiningMarks(before, e);
      PrefixStable(entries, n);
      forall i | 0 <= i < |entries| && PlaceOf(entries, i).Some?
        ensures PlaceOf(entries, i).value < |after| && LeftItsMark(entries[i], after[PlaceOf(entries, i).value])
      {
        if i < n {
          var k := PlaceOf(init, i).value;
          assert Extends(before[k], after[k]);
          MarksStay(init[i], before[k], after[k]);
        }
      }
      forall k: nat, r | k < |after| && r in after[k].rounds
        ensures HasEntryIn(entries, k, r)
      {
        RoundsComeFromEntries(before, e, k, r);
        if k < |before| && r in before[k].rounds {
          var i :| 0 <= i < |init| && PlaceOf(init, i) == Some(k) && init[i].round == r;
          assert PlaceOf(entries, i) == Some(k);
        } else {
          assert PlaceOf(entries, n) == Some(k);
        }
      }
    }
  }

  ghost predicate HasFileIn(entries: seq<Entry>, k: nat, file: nat) {
    exists i :: 0 <= i < |entries| && PlaceOf(entries, i) == Some(k) && entries[i].file == file
  }

  predicate NoRepeats(files: seq<nat>) {
    forall i, j :: 0 <= i < j < |files| ==> files[i] != files[j]
  }

  /** A class lists each file its findings name once, and no other. */
  lemma {:induction false} ClassesListTheirFiles(entries: seq<Entry>)
    ensures forall k: nat, f :: k < |Classify(entries)| && f in Classify(entries)[k].files ==>
              f != 0 && HasFileIn(entries, k, f)
    ensures forall k: nat :: k < |Classify(entries)| ==> NoRepeats(Classify(entries)[k].files)
    decreases |entries|
  {
    hide Place, Placed, Classify, NoRepeats;
    if entries == [] {
      ClassifyNothing();
    } else {
      var n := |entries| - 1;
      var init, e := entries[..n], entries[n];
      var before, after := Classify(init), Classify(entries);
      ClassesListTheirFiles(init);
      ClassifyLast(entries);
      PrefixStable(entries, n);
      forall k: nat | k < |after|
        ensures NoRepeats(after[k].files)
      {
        FilesComeFromEntries(before, e, k);
      }
      forall k: nat, f | k < |after| && f in after[k].files
        ensures f != 0 && HasFileIn(entries, k, f)
      {
        FilesComeFromEntries(before, e, k);
        if k < |before| && f in before[k].files {
          var i :| 0 <= i < |init| && PlaceOf(init, i) == Some(k) && init[i].file == f;
          assert PlaceOf(entries, i) == Some(k);
        } else {
          assert PlaceOf(entries, n) == Some(k);
        }
      }
    }
  }

  lemma FilesComeFromEntries(groups: seq<Group>, e: Entry, k: nat)
    requires k < |Placed(groups, e)|
    ensures forall f :: f in Placed(groups, e)[k].files ==>
              (k < |groups| && f in groups[k].files) || (Place(groups, e) == Some(k) && e.file == f && f != 0)
    ensures (k < |groups| ==> NoRepeats(groups[k].files)) ==> NoRepeats(Placed(groups, e)[k].files)
  {
    hide Place;
  }

  lemma ClassifyNothing()
    ensures Classify([]) == []
  {
  }

  lemma MarksStay(e: Entry, g1: Group, g2: Group)
    requires LeftItsMark(e, g1) && Extends(g1, g2)
    ensures LeftItsMark(e, g2)
  {
    assert forall t :: t in g2.members[..|g1.members|] ==> t in g2.members;
    assert forall f :: f in g2.files[..|g1.files|] ==> f in g2.files;
  }

  lemma RoundsComeFromEntries(groups: seq<Group>, e: Entry, k: nat, round: int)
    requires k < |Placed(groups, e)| && round in Placed(groups, e)[k].rounds
    ensures (k < |groups| && round in groups[k].rounds) || (Place(groups, e) == Some(k) && e.round == round)
  {
    hide Place;
  }

  lemma JoiningMarks(groups: seq<Group>, e: Entry)
    ensures Place(groups, e).Some? ==>
              Place(groups, e).value < |Placed(groups, e)| && LeftItsMark(e, Placed(groups, e)[Place(groups, e).value])
  {
    if e.tokens != {} {
      PlaceIsBest(groups, e);
      var k := Place(groups, e).value;
      if k < |groups| { FitNeedsAgreement(groups[k], e); }
    }
  }

  lemma FitNeedsAgreement(g: Group, e: Entry)
    requires Fit(g, e) >= OVERLAP_THRESHOLD
    ensures !Conflicting(g.category, e.category)
    ensures exists i :: 0 <= i < |g.members| && Alike(e.tokens, g.members[i])
  {
    hide Overlap, Alike;
    BestOfIsReached(g.members, e.tokens);
    var i :| 0 <= i < |g.members| && Overlap(e.tokens, g.members[i]) == BestOf(g.members, e.tokens);
    OverlapMeansAlike(e.tokens, g.members[i]);
  }

  /** All findings of a class that name a category name the same one. */
  lemma CategoriesAgree(entries: seq<Entry>, i: nat, j: nat)
    requires i < |entries| && j < |entries| && PlaceOf(entries, i).Some? && PlaceOf(entries, i) == PlaceOf(entries, j)
    ensures entries[i].category == 0 || entries[j].category == 0 || entries[i].category == entries[j].category
  {
    hide Place;
    ClassesHoldTheirFindings(entries);
  }

  /** Every member but the first shares at least three words, and half the smaller set, with an earlier member. */
  ghost predicate Chained(members: seq<Tokens>) {
    forall j :: 0 < j < |members| ==> LinkedAt(members, j)
  }

  ghost predicate LinkedAt(members: seq<Tokens>, j: nat)
    requires j < |members|
  {
    exists i :: 0 <= i < j && Alike(members[j], members[i])
  }

  lemma {:induction false} MembersAreChained(entries: seq<Entry>)
    ensures forall k :: 0 <= k < |Classify(entries)| ==>
              Classify(entries)[k].members != [] && Chained(Classify(entries)[k].members)
    decreases |entries|
  {
    hide Place, Alike;
    if entries != [] {
      var n := |entries| - 1;
      var e := entries[n];
      var before := Classify(entries[..n]);
      MembersAreChained(entries[..n]);
      var r := Place(before, e);
      if e.tokens != {} { PlaceIsBest(before, e); }
      if r.Some? && r.value < |before| {
        NoTokensNoPlace(before, e);
        FitNeedsAgreement(before[r.value], e);
        ChainGrows(before[r.value].members, e.tokens);
      }
    }
  }

  lemma NoTokensNoPlace(groups: seq<Group>, e: Entry)
    ensures Place(groups, e).None? <==> e.tokens == {}
  {
  }

  lemma ChainGrows(members: seq<Tokens>, tokens: Tokens)
    requires Chained(members)
    requires exists i :: 0 <= i < |members| && Alike(tokens, members[i])
    ensures Chained(members + [tokens])
  {
    var ms := members + [tokens];
    var i :| 0 <= i < |members| && Alike(tokens, members[i]);
    assert Alike(ms[|members|], ms[i]);
    forall j | 0 < j < |members|
      ensures LinkedAt(ms, j)
    {
      assert LinkedAt(members, j);
      var h :| 0 <= h < j && Alike(members[j], members[h]);
      assert Alike(ms[j], ms[h]);
    }
  }

  // ----- stopping -----

  datatype Finding = Finding(entry: Entry, actionable: bool)
  datatype Round = Round(number: int, findings: seq<Finding>)
  datatype Thresholds = Thresholds(maxRounds: int, maxRecurringRounds: int)

  predicate Pending(rounds: seq<Round>) {
    rounds != [] && exists f :: f in rounds[|rounds| - 1].findings && f.actionable
  }

  function ActionableOf(r: Round, k: nat): seq<Entry>
    requires k <= |r.findings|
  {
    if k == 0 then []
    else ActionableOf(r, k - 1) + if r.findings[k - 1].actionable then [r.findings[k - 1].entry.(round := r.number)]
        else []
  }

  /** The actionable findings of all rounds, each stamped with its round. */
  function EntriesOf(rounds: seq<Round>): seq<Entry> {
    if rounds == [] then []
    else
      var last := rounds[|rounds| - 1];
      EntriesOf(rounds[..|rounds| - 1]) + ActionableOf(last, |last.findings|)
  }

  /** How many of the first `k` findings are actionable. */
  function CountIn(findings: seq<Finding>, k: nat): nat
    requires k <= |findings|
  {
    if k == 0 then 0 else CountIn(findings, k - 1) + if findings[k - 1].actionable then 1 else 0
  }

  /** How many findings of the first `i` rounds are. */
  function CountOf(rounds: seq<Round>, i: nat): nat
    requires i <= |rounds|
  {
    if i == 0 then 0 else CountOf(rounds, i - 1) + CountIn(rounds[i - 1].findings, |rounds[i - 1].findings|)
  }

  /**
   * If finding `k` of round `i` is actionable, it stands with that round's number
   * after just the actionable ones before it.
   */
  predicate ListedAt(rounds: seq<Round>, entries: seq<Entry>, i: nat, k: nat)
    requires i < |rounds| && k < |rounds[i].findings|
  {
    rounds[i].findings[k].actionable ==>
      var at := CountOf(rounds, i) + CountIn(rounds[i].findings, k);
      at < |entries| && entries[at] == rounds[i].findings[k].entry.(round := rounds[i].number)
  }

  lemma {:induction false} ActionableListed(r: Round, k: nat, j: nat)
    requires j <= k <= |r.findings|
    ensures |ActionableOf(r, k)| == CountIn(r.findings, k) && CountIn(r.findings, j) <= CountIn(r.findings, k)
    ensures j < k && r.findings[j].actionable ==>
              CountIn(r.findings, j) < CountIn(r.findings, k)
              && ActionableOf(r, k)[CountIn(r.findings, j)] == r.findings[j].entry.(round := r.number)
  {
    if k > 0 {
      ActionableListed(r, k - 1, if j < k then j else k - 1);
    }
  }

  lemma {:induction false} CountOfPrefix(rounds: seq<Round>, n: nat, i: nat)
    requires i <= n <= |rounds|
    ensures CountOf(rounds[..n], i) == CountOf(rounds, i)
  {
    if i > 0 { CountOfPrefix(rounds, n, i - 1); }
  }

  /** What is classified is every actionable finding of every round, in order, and nothing else. */
  lemma {:induction false} EntriesAreListed(rounds: seq<Round>)
    ensures |EntriesOf(rounds)| == CountOf(rounds, |rounds|)
    ensures forall i: nat, k: nat :: i < |rounds| && k < |rounds[i].findings| ==>
              ListedAt(rounds, EntriesOf(rounds), i, k)
    decreases |rounds|
  {
    if rounds != [] {
      hide CountIn, ActionableOf;
      var n := |rounds| - 1;
      var before, last := rounds[..n], rounds[n];
      EntriesAreListed(before);
      CountOfPrefix(rounds, n, n);
      ActionableListed(last, |last.findings|, |last.findings|);
      forall i: nat, k: nat | i < |rounds| && k < |rounds[i].findings|
        ensures ListedAt(rounds, EntriesOf(rounds), i, k)
      {
        if i < n {
          assert before[i] == rounds[i] && ListedAt(before, EntriesOf(before), i, k);
          CountOfPrefix(rounds, n, i);
        } else {
          ActionableListed(last, |last.findings|, k);
        }
      }
    }
  }

  /** Some class of these entries was seen in at least `limit` rounds. */
  predicate Recurs(entries: seq<Entry>, limit: int) {
    exists k :: 0 <= k < |Classify(entries)| && |Classify(entries)[k].rounds| >= limit
  }

  predicate MustStop(rounds: seq<Round>, t: Thresholds) {
    && Pending(rounds)
    && (|| (t.maxRounds > 0 && |rounds| >= t.maxRounds)
        || t.maxRecurringRounds == 1
        || (t.maxRecurringRounds > 1 && Recurs(EntriesOf(rounds), t.maxRecurringRounds)))
  }

  /** `stopReason`: whether any reason is found. */
  method StopReason(rounds: seq<Round>, t: Thresholds) returns (stop: bool)
    ensures stop <==> MustStop(rounds, t)
  {
    if rounds == [] { return false; }
    var pending := AnyActionable(rounds[|rounds| - 1].findings);
    if !pending { return false; }
    stop := t.maxRounds > 0 && |rounds| >= t.maxRounds;
    if t.maxRecurringRounds == 1 {
      stop := true;
    } else if t.maxRecurringRounds > 1 {
      var entries := Collect(rounds);
      var recurs := AnyRecurs(entries, t.maxRecurringRounds);
      stop := stop || recurs;
    }
  }

  method AnyActionable(findings: seq<Finding>) returns (any: bool)
    ensures any <==> exists f :: f in findings && f.actionable
  {
    any := false;
    for i := 0 to |findings|
      invariant any <==> exists f :: f in findings[..i] && f.actionable
    {
      assert findings[..i + 1] == findings[..i] + [findings[i]];
      any := any || findings[i].actionable;
    }
    assert findings[..|findings|] == findings;
  }

  /** Only classes seen in two rounds or more are reported as recurring. */
  method AnyRecurs(entries: seq<Entry>, limit: int) returns (recurs: bool)
    requires limit > 1
    ensures recurs <==> Recurs(entries, limit)
  {
    var classes := GroupFindings(entries);
    recurs := false;
    for k := 0 to |classes|
      invariant recurs <==> exists j :: 0 <= j < k && |classes[j].rounds| >= limit
    {
      if |classes[k].rounds| >= 2 && |classes[k].rounds| >= limit { recurs := true; }
    }
    ghost var groups := Classify(entries);
    assert forall j :: 0 <= j < |groups| ==> groups[j].rounds == classes[j].rounds;
  }

  method Collect(rounds: seq<Round>) returns (entries: seq<Entry>)
    ensures entries == EntriesOf(rounds)
  {
    entries := [];
    for i := 0 to |rounds|
      invariant entries == EntriesOf(rounds[..i])
    {
      var r := rounds[i];
      ghost var before := entries;
      for k := 0 to |r.findings|
        invariant entries == before + ActionableOf(r, k)
      {
        if r.findings[k].actionable { entries := entries + [r.findings[k].entry.(round := r.number)]; }
      }
      assert rounds[..i + 1][..i] == rounds[..i];
    }
    assert rounds[..|rounds|] == rounds;
  }

  lemma {:induction false} EntriesArePrefix(rounds: seq<Round>, n: nat)
    requires n <= |rounds|
    ensures |EntriesOf(rounds[..n])| <= |EntriesOf(rounds)|
    ensures EntriesOf(rounds)[..|EntriesOf(rounds[..n])|] == EntriesOf(rounds[..n])
    decreases |rounds|
  {
    if n == |rounds| {
      assert rounds[..n] == rounds;
    } else {
      var m := |rounds| - 1;
      assert rounds[..m][..n] == rounds[..n];
      EntriesArePrefix(rounds[..m], n);
    }
  }

  /** Once a review must stop, it must stop after every later round that still has something pending. */
  lemma StopPersists(rounds: seq<Round>, n: nat, t: Thresholds)
    requires n <= |rounds| && MustStop(rounds[..n], t) && Pending(rounds)
    ensures MustStop(rounds, t)
  {
    if t.maxRecurringRounds > 1 && Recurs(EntriesOf(rounds[..n]), t.maxRecurringRounds) {
      EntriesArePrefix(rounds, n);
      var early, all := EntriesOf(rounds[..n]), EntriesOf(rounds);
      PrefixStable(all, |early|);
      var g0, g := Classify(early), Classify(all);
      var k :| 0 <= k < |g0| && |g0[k].rounds| >= t.maxRecurringRounds;
      assert Extends(g0[k], g[k]);
      SubsetIsSmaller(g0[k].rounds, g[k].rounds);
    }
  }

  lemma {:induction false} SubsetIsSmaller<T>(a: set<T>, b: set<T>)
    requires a <= b
    ensures |a| <= |b|
    decreases |a|
  {
    if a != {} {
      var x :| x in a;
      SubsetIsSmaller(a - {x}, b - {x});
    }
  }
}
