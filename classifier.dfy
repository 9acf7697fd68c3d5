/**
 * The phase classifier: nine named conditions over the latest indicator
 * values, then an if/elif cascade over them in a fixed order; the first
 * condition that holds decides the phase.
 */
module Classifier {
  import opened Options

  /** The values of the last row that the conditions read. */
  datatype Inputs = Inputs(smp: real, mugesR: real, obvAboveMa: bool, chgR: real,
                           volR: real, fConsec: nat, fToday: int, iToday: int)

  /** The nine named conditions, evaluated before the cascade. */
  datatype Flags = Flags(golden: bool, p1Obv: bool, p1Supply: bool, p1Quiet: bool,
                         p2Early: bool, p2Accel: bool, p2Break: bool,
                         p3Change: bool, p3Spread: bool)

  /** The conditions with their thresholds. */
  function FlagsOf(x: Inputs): Flags {
    Flags(
      golden := x.smp > 0.0 && x.fConsec >= 3 && x.iToday > 0 && x.mugesR < 0.8 && x.volR < 1.5,
      p1Obv := x.obvAboveMa && x.chgR <= 0.0,
      p1Supply := x.smp > 0.0 && x.fConsec >= 3 && x.iToday > 0,
      p1Quiet := x.mugesR < 0.5 && x.smp > 0.0 && x.fToday > 0,
      p2Early := x.fToday > 0 && x.iToday > 0 && x.volR >= 1.3 && x.smp > 0.0 && x.fConsec >= 2,
      p2Accel := x.fConsec >= 5 && x.smp > 0.0 && x.volR >= 1.2,
      p2Break := x.volR >= 2.0 && x.fToday > 0,
      p3Change := x.fToday < 0 && x.iToday < 0,
      p3Spread := x.mugesR > 3.0 && x.fToday < 0)
  }

  datatype PhaseKey = Golden | P1 | P2 | P3 | NoPhase

  /** The phase_key strings of the output record. */
  function KeyName(k: PhaseKey): string {
    match k
    case Golden => "golden"
    case P1 => "p1"
    case P2 => "p2"
    case P3 => "p3"
    case NoPhase => "none"
  }

  /** One branch of the cascade. */
  datatype Rule = GoldenRule | P2Break | P2Accel | P2Early | P1Supply | P1Quiet | P1Obv | P3Spread | P3Change

  /** The condition a branch tests. */
  predicate Fires(r: Rule, f: Flags) {
    match r
    case GoldenRule => f.golden
    case P2Break => f.p2Break
    case P2Accel => f.p2Accel
    case P2Early => f.p2Early
    case P1Supply => f.p1Supply
    case P1Quiet => f.p1Quiet
    case P1Obv => f.p1Obv
    case P3Spread => f.p3Spread
    case P3Change => f.p3Change
  }

  /** The if/elif cascade: the branch taken, or None for the final else. */
  function Cascade(f: Flags): Option<Rule> {
    if f.golden then Some(GoldenRule)
    else if f.p2Break then Some(P2Break)
    else if f.p2Accel then Some(P2Accel)
    else if f.p2Early then Some(P2Early)
    else if f.p1Supply then Some(P1Supply)
    else if f.p1Quiet then Some(P1Quiet)
    else if f.p1Obv then Some(P1Obv)
    else if f.p3Spread then Some(P3Spread)
    else if f.p3Change then Some(P3Change)
    else None
  }

  /** The branch taken for the given indicator values. */
  function Classify(x: Inputs): Option<Rule> {
    Cascade(FlagsOf(x))
  }

  /** The display label of a cascade outcome ("" when no branch is taken). */
  function Label(c: Option<Rule>): string {
    match c
    case None => ""
    case Some(GoldenRule) => "⭐ GOLDEN"
    case Some(P2Break) => "🟢 P2 거래량돌파"
    case Some(P2Accel) => "🟢 P2 수급가속"
    case Some(P2Early) => "🟢 P2 상승초기"
    case Some(P1Supply) => "🔵 P1 수급복합"
    case Some(P1Quiet) => "🔵 P1 조용매집"
    case Some(P1Obv) => "🔵 P1 OBV매집"
    case Some(P3Spread) => "🔴 P3 분산경고"
    case Some(P3Change) => "🔴 P3 손바뀜경고"
  }

  /** The phase key of a cascade outcome. */
  function Key(c: Option<Rule>): PhaseKey {
    match c
    case None => NoPhase
    case Some(GoldenRule) => Golden
    case Some(P2Break) => P2
    case Some(P2Accel) => P2
    case Some(P2Early) => P2
    case Some(P1Supply) => P1
    case Some(P1Quiet) => P1
    case Some(P1Obv) => P1
    case Some(P3Spread) => P3
    case Some(P3Change) => P3
  }

  /** The branch order as an explicit list: a reference for the cascade. */
  const Priority: seq<Rule> :=
    [GoldenRule, P2Break, P2Accel, P2Early, P1Supply, P1Quiet, P1Obv, P3Spread, P3Change]

  /** The position of a rule in the priority order. */
  function Rank(r: Rule): (n: nat)
    ensures n < |Priority| && Priority[n] == r
  {
    match r
    case GoldenRule => 0
    case P2Break => 1
    case P2Accel => 2
    case P2Early => 3
    case P1Supply => 4
    case P1Quiet => 5
    case P1Obv => 6
    case P3Spread => 7
    case P3Change => 8
  }

  /** The first rule of the list whose condition holds, scanning from the front. */
  function FirstMatch(rules: seq<Rule>, f: Flags): Option<Rule> {
    if rules == [] then None
    else if Fires(rules[0], f) then Some(rules[0])
    else FirstMatch(rules[1..], f)
  }

  /**
   * FirstMatch finds nothing exactly when no rule of the list holds, and
   * otherwise finds a rule that holds with no holding rule before it.
   */
  lemma {:induction false} FirstMatchSpec(rules: seq<Rule>, f: Flags)
    ensures FirstMatch(rules, f).None? <==> forall i :: 0 <= i < |rules| ==> !Fires(rules[i], f)
    ensures FirstMatch(rules, f).Some? ==>
              exists i :: 0 <= i < |rules| && rules[i] == FirstMatch(rules, f).value && Fires(rules[i], f) &&
                          forall j :: 0 <= j < i ==> !Fires(rules[j], f)
  {
    if rules != [] && !Fires(rules[0], f) {
      var rest := rules[1..];
      FirstMatchSpec(rest, f);
      assert forall i :: 1 <= i < |rules| ==> rules[i] == rest[i - 1];
      if FirstMatch(rest, f).Some? {
        var i :| 0 <= i < |rest| && rest[i] == FirstMatch(rest, f).value && Fires(rest[i], f) &&
                 forall j :: 0 <= j < i ==> !Fires(rest[j], f);
        assert rules[i + 1] == rest[i];
        assert forall j :: 1 <= j < i + 1 ==> !Fires(rules[j], f);
      }
    }
  }

  /**
   * The branch the cascade takes has a condition that holds and no holding
   * condition ranks before it; with no branch taken, no condition holds.
   */
  lemma CascadeSound(f: Flags)
    ensures Cascade(f).Some? ==>
              Fires(Cascade(f).value, f) && forall q: Rule :: Rank(q) < Rank(Cascade(f).value) ==> !Fires(q, f)
    ensures Cascade(f).None? ==> forall q: Rule :: !Fires(q, f)
  {
  }

  /** Position i of the priority list holds the rule of rank i. */
  lemma RankOfPriority()
    ensures forall i :: 0 <= i < |Priority| ==> Rank(Priority[i]) == i
  {
  }

  /** The cascade is exactly the first match over the priority list. */
  lemma CascadeIsFirstMatch(f: Flags)
    ensures Cascade(f) == FirstMatch(Priority, f)
  {
    CascadeSound(f);
    FirstMatchSpec(Priority, f);
    RankOfPriority();
    if FirstMatch(Priority, f).None? {
      forall q: Rule ensures !Fires(q, f) {
        assert Priority[Rank(q)] == q;
      }
    } else {
      var c := FirstMatch(Priority, f).value;
      var i :| 0 <= i < |Priority| && Priority[i] == c && Fires(Priority[i], f) &&
               forall j :: 0 <= j < i ==> !Fires(Priority[j], f);
      assert Rank(c) == i;
      var d := Cascade(f).value;
      assert Priority[Rank(d)] == d;
      assert !(Rank(d) < i);
      assert Rank(d) == Rank(c);
    }
  }

  /**
   * The cascade takes branch r exactly when r's condition holds and no
   * condition earlier in the order does, and takes none exactly when no
   * condition holds.
   */
  lemma CascadePriority(f: Flags, r: Rule)
    ensures Cascade(f) == Some(r) <==>
              Fires(r, f) && forall q: Rule :: Rank(q) < Rank(r) ==> !Fires(q, f)
    ensures Cascade(f) == None <==> forall q: Rule :: !Fires(q, f)
  {
    CascadeSound(f);
    if Fires(r, f) && forall q: Rule :: Rank(q) < Rank(r) ==> !Fires(q, f) {
      var d := Cascade(f).value;
      assert !(Rank(r) < Rank(d));
      assert Priority[Rank(d)] == d && Priority[Rank(r)] == r;
    }
  }

  /** The key is "none" exactly when no branch is taken, and then the label is empty. */
  lemma NoPhaseIffNoBranch(c: Option<Rule>)
    ensures Key(c) == NoPhase <==> c == None
    ensures Key(c) == NoPhase <==> Label(c) == ""
  {
  }

  /**
   * Golden's condition includes P1 composite-flow's, so an input meeting
   * both is golden, and a P1 composite result has muges_r >= 0.8 or vol_r >= 1.5.
   */
  lemma GoldenBeforeP1Supply(x: Inputs)
    ensures FlagsOf(x).golden ==> FlagsOf(x).p1Supply && Key(Classify(x)) == Golden
    ensures Classify(x) == Some(P1Supply) ==> x.mugesR >= 0.8 || x.volR >= 1.5
  {
  }

  /** A P3 phase always comes with foreign net selling on the day. */
  lemma P3MeansForeignSelling(x: Inputs)
    ensures Key(Classify(x)) == P3 ==> x.fToday < 0
  {
  }

  /**
   * Without flow data (no SMP, no streak, no day flows) only the OBV
   * condition can hold: the key is p1 through that branch, or none.
   */
  lemma NoFlowsOnlyObvRule(x: Inputs)
    requires x.smp == 0.0 && x.fConsec == 0 && x.fToday == 0 && x.iToday == 0
    ensures Key(Classify(x)) == P1 <==> x.obvAboveMa && x.chgR <= 0.0
    ensures Key(Classify(x)) == P1 ==> Classify(x) == Some(P1Obv)
    ensures Key(Classify(x)) != P1 ==> Key(Classify(x)) == NoPhase
  {
  }
}
