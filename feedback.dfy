/**
 * Shoulder and neck classification in `checkPosture` and the recommendation
 * text built by `updateRecommendations` (shoulders.js).
 */
module PostureFeedback {

  /** `sensitivityMultiplier`; 10 * 1.2 and 15 * 1.2 are exactly 12 and 18 in doubles too. */
  const SensitivityMultiplier: real := 1.2
  const ShoulderThreshold: real := 10.0 * SensitivityMultiplier
  const NeckThreshold: real := 15.0 * SensitivityMultiplier

  datatype ShoulderPosture = ShouldersGood | ShouldersHunched | ShouldersBack
  datatype NeckPosture = NeckGood | HeadForward | HeadBack

  function Abs(x: real): real {
    if x < 0.0 then -x else x
  }

  /**
   * Shoulders deviate when the smoothed angle is more than 12 degrees from
   * the baseline; above the baseline means hunched, below means too far back.
   */
  function ClassifyShoulders(smoothed: real, baseline: real): (p: ShoulderPosture)
    ensures p == ShouldersGood <==> baseline - 12.0 <= smoothed <= baseline + 12.0
    ensures p == ShouldersHunched <==> smoothed > baseline + 12.0
    ensures p == ShouldersBack <==> smoothed < baseline - 12.0
  {
    if Abs(smoothed - baseline) > ShoulderThreshold then
      if smoothed > baseline then ShouldersHunched else ShouldersBack
    else ShouldersGood
  }

  /**
   * The neck deviates when the smoothed angle is more than 18 degrees from
   * the baseline; below the baseline means the head is too far forward.
   */
  function ClassifyNeck(smoothed: real, baseline: real): (p: NeckPosture)
    ensures p == NeckGood <==> baseline - 18.0 <= smoothed <= baseline + 18.0
    ensures p == HeadForward <==> smoothed < baseline - 18.0
    ensures p == HeadBack <==> smoothed > baseline + 18.0
  {
    if Abs(smoothed - baseline) > NeckThreshold then
      if smoothed < baseline then HeadForward else HeadBack
    else NeckGood
  }

  /** The status line shown for each shoulder posture. */
  function ShoulderText(p: ShoulderPosture): string {
    match p
    case ShouldersHunched => "Shoulders are hunched forward"
    case ShouldersBack => "Shoulders are too far back"
    case ShouldersGood => "Shoulder posture is good"
  }

  /** The status line shown for each neck posture. */
  function NeckText(p: NeckPosture): string {
    match p
    case HeadForward => "Your head is too far forward"
    case HeadBack => "Your head is too far back"
    case NeckGood => "Neck posture is good"
  }

  const Hunched: string := "hunched"
  const TooFarBack: string := "too far back"
  const TooFarForward: string := "too far forward"

  const RollShouldersBack: string :=
    "Roll your shoulders back and down. Imagine pulling your shoulder blades together and down. "
  const RelaxShoulders: string := "Relax your shoulders slightly forward. Don't overextend backward. "
  const PullChinBack: string :=
    "Gently pull your chin back to align your ears with your shoulders. Think \"neck back, not up\". "
  const NeutralHead: string := "Bring your head to a neutral position, not tilted back. Look straight ahead. "
  const TakeBreak: string := "Take a short break to stretch if needed."
  const GreatJob: string := "Great job! Maintain your current posture."

  /** `p` occurs in `s` at index `i`. */
  predicate OccursAt(s: string, p: string, i: nat) {
    i + |p| <= |s| && s[i..i + |p|] == p
  }

  /** `p` occurs in `s` at index `i` or later. */
  predicate OccursFrom(s: string, p: string, i: nat)
    decreases |s| - i
  {
    if i + |p| > |s| then false else OccursAt(s, p, i) || OccursFrom(s, p, i + 1)
  }

  /** `String.prototype.includes`. */
  predicate Includes(s: string, p: string) {
    OccursFrom(s, p, 0)
  }

  /** An occurrence at `k` is found by a search that starts at or before `k`. */
  lemma {:induction false} OccursFromWitness(s: string, p: string, i: nat, k: nat)
    requires i <= k && OccursAt(s, p, k)
    ensures OccursFrom(s, p, i)
    decreases k - i
  {
    if i < k {
      OccursFromWitness(s, p, i + 1, k);
    }
  }

  /** A successful search from `i` has found an occurrence at `i` or later. */
  lemma {:induction false} OccursFromSound(s: string, p: string, i: nat)
    requires OccursFrom(s, p, i)
    ensures exists k :: i <= k && OccursAt(s, p, k)
    decreases |s| - i
  {
    if !OccursAt(s, p, i) {
      OccursFromSound(s, p, i + 1);
    }
  }

  /** The search succeeds exactly when the phrase occurs at some index of the text. */
  lemma IncludesMeansOccurs(s: string, p: string)
    ensures Includes(s, p) <==> exists k: nat :: OccursAt(s, p, k)
  {
    if Includes(s, p) {
      OccursFromSound(s, p, 0);
    }
    if exists k: nat :: OccursAt(s, p, k) {
      var k: nat :| OccursAt(s, p, k);
      OccursFromWitness(s, p, 0, k);
    }
  }

  /** A phrase placed after a prefix is found by the search. */
  lemma IncludesAfterPrefix(prefix: string, p: string, suffix: string)
    ensures Includes(prefix + p + suffix, p)
  {
    var s := prefix + p + suffix;
    assert s[|prefix|..|prefix| + |p|] == p;
    OccursFromWitness(s, p, 0, |prefix|);
  }

  /** Every character of a phrase that occurs in a text is a character of the text. */
  lemma IncludesKeepsChars(s: string, p: string)
    ensures Includes(s, p) ==> forall c :: c in p ==> c in s
  {
    if Includes(s, p) {
      OccursFromSound(s, p, 0);
      var k: nat :| OccursAt(s, p, k);
      forall c | c in p ensures c in s {
        var j :| 0 <= j < |p| && p[j] == c;
        assert s[k..k + |p|][j] == s[k + j];
      }
    }
  }

  /** A phrase with a character the text lacks does not occur in it. */
  lemma MissingCharExcludes(s: string, p: string, c: char)
    requires c in p && c !in s
    ensures !Includes(s, p)
  {
    IncludesKeepsChars(s, p);
  }

  lemma HunchedPhrases()
    ensures Includes(ShoulderText(ShouldersHunched), Hunched)
    ensures !Includes(ShoulderText(ShouldersHunched), TooFarBack)
  {
    assert ShoulderText(ShouldersHunched) == "Shoulders are " + Hunched + " forward";
    IncludesAfterPrefix("Shoulders are ", Hunched, " forward");
    MissingCharExcludes(ShoulderText(ShouldersHunched), TooFarBack, 'k');
  }

  lemma ShouldersBackPhrases()
    ensures Includes(ShoulderText(ShouldersBack), TooFarBack)
    ensures !Includes(ShoulderText(ShouldersBack), Hunched)
  {
    assert ShoulderText(ShouldersBack) == "Shoulders are " + TooFarBack + "";
    IncludesAfterPrefix("Shoulders are ", TooFarBack, "");
    MissingCharExcludes(ShoulderText(ShouldersBack), Hunched, 'n');
  }

  lemma ShouldersGoodPhrases()
    ensures !Includes(ShoulderText(ShouldersGood), Hunched)
    ensures !Includes(ShoulderText(ShouldersGood), TooFarBack)
  {
    MissingCharExcludes(ShoulderText(ShouldersGood), Hunched, 'n');
    MissingCharExcludes(ShoulderText(ShouldersGood), TooFarBack, 'k');
  }

  lemma HeadForwardPhrases()
    ensures Includes(NeckText(HeadForward), TooFarForward)
    ensures !Includes(NeckText(HeadForward), TooFarBack)
  {
    assert NeckText(HeadForward) == "Your head is " + TooFarForward + "";
    IncludesAfterPrefix("Your head is ", TooFarForward, "");
    MissingCharExcludes(NeckText(HeadForward), TooFarBack, 'k');
  }

  lemma HeadBackPhrases()
    ensures Includes(NeckText(HeadBack), TooFarBack)
    ensures !Includes(NeckText(HeadBack), TooFarForward)
  {
    assert NeckText(HeadBack) == "Your head is " + TooFarBack + "";
    IncludesAfterPrefix("Your head is ", TooFarBack, "");
    MissingCharExcludes(NeckText(HeadBack), TooFarForward, 'w');
  }

  lemma NeckGoodPhrases()
    ensures !Includes(NeckText(NeckGood), TooFarForward)
    ensures !Includes(NeckText(NeckGood), TooFarBack)
  {
    MissingCharExcludes(NeckText(NeckGood), TooFarForward, 'f');
    MissingCharExcludes(NeckText(NeckGood), TooFarBack, 'f');
  }

  /** Each shoulder status line contains exactly the phrase `updateRecommendations` looks for. */
  lemma ShoulderPhrases(s: ShoulderPosture)
    ensures Includes(ShoulderText(s), Hunched) <==> s == ShouldersHunched
    ensures Includes(ShoulderText(s), TooFarBack) <==> s == ShouldersBack
  {
    match s
    case ShouldersHunched => HunchedPhrases();
    case ShouldersBack => ShouldersBackPhrases();
    case ShouldersGood => ShouldersGoodPhrases();
  }

  /** Each neck status line contains exactly the phrase `updateRecommendations` looks for. */
  lemma NeckPhrases(n: NeckPosture)
    ensures Includes(NeckText(n), TooFarForward) <==> n == HeadForward
    ensures Includes(NeckText(n), TooFarBack) <==> n == HeadBack
  {
    match n
    case HeadForward => HeadForwardPhrases();
    case HeadBack => HeadBackPhrases();
    case NeckGood => NeckGoodPhrases();
  }

  /** The shoulder sentence chosen for a status line, empty when it names no deviation. */
  function ShoulderAdvice(shoulderStatus: string): string {
    if Includes(shoulderStatus, Hunched) then RollShouldersBack
    else if Includes(shoulderStatus, TooFarBack) then RelaxShoulders
    else ""
  }

  /** The neck sentence chosen for a status line, empty when it names no deviation. */
  function NeckAdvice(neckStatus: string): string {
    if Includes(neckStatus, TooFarForward) then PullChinBack
    else if Includes(neckStatus, TooFarBack) then NeutralHead
    else ""
  }

  /** Some status line names a deviation phrase. */
  predicate NamesIssue(shoulderStatus: string, neckStatus: string) {
    Includes(shoulderStatus, Hunched) || Includes(shoulderStatus, TooFarBack)
    || Includes(neckStatus, TooFarForward) || Includes(neckStatus, TooFarBack)
  }

  /** The status lines of two postures name a deviation iff some posture deviates. */
  lemma NamesIssueIffDeviating(s: ShoulderPosture, n: NeckPosture)
    ensures NamesIssue(ShoulderText(s), NeckText(n)) <==> s != ShouldersGood || n != NeckGood
  {
    ShoulderPhrases(s);
    NeckPhrases(n);
  }

  /** Every advice sentence is longer than one character, and the praise line is one longer than the closing sentence. */
  lemma TextLengths()
    ensures |RollShouldersBack| > 1 && |RelaxShoulders| > 1 && |PullChinBack| > 1 && |NeutralHead| > 1
    ensures |GreatJob| == |TakeBreak| + 1
  {
  }

  /**
   * Builds the advice text from the two status lines: one sentence for the
   * shoulders and one for the neck when their status names a deviation, then
   * a closing sentence; the praise line when neither does.
   */
  method UpdateRecommendations(shoulderStatus: string, neckStatus: string) returns (recommendation: string)
    ensures recommendation == GreatJob <==> !NamesIssue(shoulderStatus, neckStatus)
    ensures NamesIssue(shoulderStatus, neckStatus) ==>
              |recommendation| > |TakeBreak| && recommendation[|recommendation| - |TakeBreak|..] == TakeBreak
    ensures NamesIssue(shoulderStatus, neckStatus) ==>
              recommendation == ShoulderAdvice(shoulderStatus) + NeckAdvice(neckStatus) + TakeBreak
  {
    recommendation := "";
    if Includes(shoulderStatus, Hunched) {
      recommendation := recommendation + RollShouldersBack;
    } else if Includes(shoulderStatus, TooFarBack) {
      recommendation := recommendation + RelaxShoulders;
    }
    assert recommendation == ShoulderAdvice(shoulderStatus);
    ghost var shoulderPart := recommendation;
    if Includes(neckStatus, TooFarForward) {
      recommendation := recommendation + PullChinBack;
    } else if Includes(neckStatus, TooFarBack) {
      recommendation := recommendation + NeutralHead;
    }
    assert recommendation == shoulderPart + NeckAdvice(neckStatus);
    TextLengths();
    assert recommendation == "" <==> !NamesIssue(shoulderStatus, neckStatus);
    if recommendation == "" {
      recommendation := GreatJob;
    } else {
      ghost var advice := recommendation;
      recommendation := recommendation + TakeBreak;
      assert recommendation[|advice|..] == TakeBreak;
      assert |recommendation| > |GreatJob|;
    }
  }
}
