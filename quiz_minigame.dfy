/** The minigame under the quiz results: the score picks one of four
    outcomes, each with its message, icon and colour, and one meteor falls
    per answered question. */
module QuizMinigame {

  /** `results.filter(Boolean).length`: the number of correct answers. */
  function CountCorrect(results: seq<bool>): (r: nat)
    ensures r <= |results|
    ensures r == |results| <==> forall i | 0 <= i < |results| :: results[i]
    ensures r == 0 <==> forall i | 0 <= i < |results| :: !results[i]
  {
    if results == [] then 0
    else (if results[0] then 1 else 0) + CountCorrect(results[1..])
  }

  /** Counting the results of two rounds together adds their counts. */
  lemma {:induction false} CountCorrectAppend(a: seq<bool>, b: seq<bool>)
    ensures CountCorrect(a + b) == CountCorrect(a) + CountCorrect(b)
  {
    if a != [] {
      CountCorrectAppend(a[1..], b);
      assert (a + b)[1..] == a[1..] + b;
    } else {
      assert a + b == b;
    }
  }

  datatype ResultState = Perfect | Good | Bad | Lost

  datatype Icon = ShieldCheck | ShieldAlert | Skull

  /** The message shown: a translation key, or the fallback sentence when
      the no-results translation is empty. */
  datatype Message = Key(key: string) | Fallback

  datatype Outcome = Outcome(state: ResultState, message: Message, icon: Icon)

  /** The if/else chain of the component, given the translation of
      'minigame.no_results' (the `||` falls back on an empty string). */
  function Classify(results: seq<bool>, noResultsText: string): (o: Outcome)
    ensures |results| > 0 && o.state == Perfect ==> o.message == Key("minigame.perfect")
    ensures |results| > 0 && o.state == Good ==> o.message == Key("minigame.good")
    ensures |results| > 0 && o.state == Bad ==> o.message == Key("minigame.bad")
    ensures o.state == Lost ==> o.message == Key("minigame.lost")
    ensures o.icon == ShieldCheck <==> o.state == Perfect
    ensures o.icon == Skull <==> o.state == Lost
  {
    var correct, total := CountCorrect(results), |results|;
    if total > 0 then
      if correct == total then Outcome(Perfect, Key("minigame.perfect"), ShieldCheck)
      else if 2 * correct >= total then Outcome(Good, Key("minigame.good"), ShieldAlert)
      else if correct > 0 then Outcome(Bad, Key("minigame.bad"), ShieldAlert)
      else Outcome(Lost, Key("minigame.lost"), Skull)
    else
      Outcome(Bad, if noResultsText == "" then Fallback else Key("minigame.no_results"), ShieldAlert)
  }

  /** No results is a 'bad' outcome with the no-results message, or its
      fallback sentence when that translation is empty. */
  lemma NoResultsIsBad(noResultsText: string)
    ensures Classify([], noResultsText).state == Bad
    ensures Classify([], noResultsText).message ==
      if noResultsText == "" then Fallback else Key("minigame.no_results")
  {
  }

  /** The four outcomes, each by the score that selects it. The comparison
      `correct >= total / 2` is on JavaScript numbers, so it reads as
      2·correct ≥ total exactly. */
  lemma ClassifyIff(results: seq<bool>, noResultsText: string)
    ensures var o, c, n := Classify(results, noResultsText), CountCorrect(results), |results|;
      (o.state == Perfect <==> n > 0 && forall i | 0 <= i < n :: results[i]) &&
      (o.state == Good <==> n > 0 && c < n && 2 * c >= n) &&
      (n > 0 ==> (o.state == Bad <==> 0 < c && 2 * c < n)) &&
      (o.state == Lost <==> n > 0 && forall i | 0 <= i < n :: !results[i])
  {
  }

  /** Exactly one outcome is chosen: the four conditions of the chain
      split the non-empty results between them. */
  lemma ExactlyOneOutcome(results: seq<bool>)
    requires |results| > 0
    ensures var c, n := CountCorrect(results), |results|;
      (if c == n then 1 else 0) + (if c < n && 2 * c >= n then 1 else 0) +
      (if 0 < c && 2 * c < n then 1 else 0) + (if c == 0 then 1 else 0) == 1
  {
  }

  /** More correct answers out of the same number of questions never give a
      worse outcome. */
  function Rank(s: ResultState): nat {
    match s
    case Lost => 0
    case Bad => 1
    case Good => 2
    case Perfect => 3
  }

  lemma ClassifyMonotone(a: seq<bool>, b: seq<bool>, text: string)
    requires |a| == |b| > 0 && CountCorrect(a) <= CountCorrect(b)
    ensures Rank(Classify(a, text).state) <= Rank(Classify(b, text).state)
  {
  }

  datatype Colour = Green500 | Yellow500 | Orange500 | Destructive

  /** `iconColor`: the colour of the icon and the message. */
  function IconColour(s: ResultState): (c: Colour)
    ensures s == Perfect <==> c == Green500
    ensures s == Good <==> c == Yellow500
    ensures s == Bad <==> c == Orange500
    ensures s == Lost <==> c == Destructive
  {
    match s
    case Perfect => Green500
    case Good => Yellow500
    case Bad => Orange500
    case Lost => Destructive
  }

  /** The result line is drawn only when there are results. */
  predicate ShowsResult(results: seq<bool>) {
    |results| > 0
  }

  /** One falling meteor: its left offset in percent and its animation
      delay in seconds. */
  datatype Meteor = Meteor(left: int, delay: int)

  function Meteors(results: seq<bool>): (ms: seq<Meteor>)
    ensures |ms| == |results|
  {
    seq(|results|, i requires 0 <= i < |results| => Meteor(20 + 25 * i, i))
  }

  /** The meteors start at 20% and stand 25 points apart, left to right,
      each falling one second after the previous. */
  lemma MeteorsSpread(results: seq<bool>)
    ensures |results| > 0 ==> Meteors(results)[0] == Meteor(20, 0)
    ensures forall i | 0 < i < |results| ::
      Meteors(results)[i].left == Meteors(results)[i - 1].left + 25 &&
      Meteors(results)[i].delay == Meteors(results)[i - 1].delay + 1
  {
  }
}
