/*
 * The USDT-to-KZT conversion dialogue: convert_start opens it,
 * convert_amount handles each reply while it is open, cancel closes it.
 *
 * The dialogue library stores the state per user; the model keeps only
 * the transition each handler returns.  What float() makes of the text
 * is an input (`parsed`), as are the network answers for USDT.
 */
module Conversation {
  import opened Rates

  /** CONVERT_AMOUNT, the one open state, and ConversationHandler.END. */
  datatype State = ConvertAmount | End

  /** Why an amount is refused: float() failed, or the number is not positive. */
  datatype Refusal = NotANumber | NotPositive

  /** What the reply of one handler reports. */
  datatype Outcome =
    | AskAmount                                        // prompt for the amount
    | Cancelled                                        // "Конвертация отменена."
    | InvalidAmount(why: Refusal)                      // re-prompt with the error
    | Converted(amount: real, rate: real, total: real) // amount USDT = total KZT at rate
    | RateUnavailable                                  // USDT rate could not be fetched

  /** The next state, the reply, and the legs requested while handling the message. */
  datatype Step = Step(next: State, outcome: Outcome, consulted: seq<Leg>)

  const CancelKeyword: string := "Отмена"

  /** An amount that convert_amount accepts. */
  predicate Positive(parsed: Option<real>)
  {
    parsed.Some? && parsed.value > 0.0
  }

  /** convert_start: prompt for an amount and open the dialogue. */
  function ConvertStart(): (s: Step)
    ensures s.next == ConvertAmount && s.outcome == AskAmount && s.consulted == []
  {
    Step(ConvertAmount, AskAmount, [])
  }

  /** cancel: close the dialogue without asking for any rate. */
  function Cancel(): (s: Step)
    ensures s.next == End && s.outcome == Cancelled && s.consulted == []
  {
    Step(End, Cancelled, [])
  }

  /** convert_amount: one message while the dialogue waits for an amount. */
  function ConvertStep(text: string, parsed: Option<real>, usdt: Exchange): (s: Step)
    // the cancel keyword ends the dialogue before anything is parsed or fetched
    ensures text == CancelKeyword ==> s.next == End && s.outcome == Cancelled && s.consulted == []
    // the dialogue stays open exactly for refused amounts
    ensures s.next == ConvertAmount <==> text != CancelKeyword && !Positive(parsed)
    ensures s.next == ConvertAmount ==>
              s.outcome == InvalidAmount(if parsed.None? then NotANumber else NotPositive)
    // the USDT rate is asked for exactly when a positive amount arrives
    ensures s.consulted != [] <==> text != CancelKeyword && Positive(parsed)
    ensures text != CancelKeyword && Positive(parsed) ==> s.consulted == UsdtKztRate(usdt).consulted
    // a positive amount ends the dialogue with the product or a failure notice
    ensures text != CancelKeyword && Positive(parsed) ==>
              (s.outcome.Converted? <==> Truthy(UsdtKztRate(usdt).rate)) &&
              (s.outcome.Converted? || s.outcome == RateUnavailable)
    ensures s.outcome.Converted? ==>
              s.outcome.amount == parsed.value &&
              Some(s.outcome.rate) == UsdtKztRate(usdt).rate && s.outcome.rate != 0.0 &&
              s.outcome.total == s.outcome.amount * s.outcome.rate
  {
    if text == CancelKeyword then Step(End, Cancelled, [])
    else if parsed.None? then Step(ConvertAmount, InvalidAmount(NotANumber), [])
    else if parsed.value <= 0.0 then Step(ConvertAmount, InvalidAmount(NotPositive), [])
    else
      var res := Resolve(Symbol(USDT), usdt.primary, usdt.usdLeg, usdt.fxLeg);
      if res.rate.Some? && res.rate.value != 0.0 then
        Step(End, Converted(parsed.value, res.rate.value, parsed.value * res.rate.value), res.consulted)
      else
        Step(End, RateUnavailable, res.consulted)
  }

  /** The keyword inside the dialogue and the cancel handler have the same effect. */
  lemma CancelKeywordIsCancel(parsed: Option<real>, usdt: Exchange)
    ensures ConvertStep(CancelKeyword, parsed, usdt) == Cancel()
  {
  }

  /** One message of the dialogue: the text, what float() makes of it, the network answers for USDT. */
  datatype Turn = Turn(text: string, parsed: Option<real>, usdt: Exchange)

  /** A message that closes the dialogue. */
  predicate Decisive(t: Turn)
  {
    t.text == CancelKeyword || Positive(t.parsed)
  }

  /**
   * Feeding messages to an open dialogue: the state reached and how many
   * messages it took (all of them while it stays open).
   */
  function Run(turns: seq<Turn>): (r: (State, nat))
    ensures r.1 <= |turns|
    decreases |turns|
  {
    if turns == [] then (ConvertAmount, 0)
    else
      var s := ConvertStep(turns[0].text, turns[0].parsed, turns[0].usdt);
      if s.next == End then (End, 1)
      else
        var rest := Run(turns[1..]);
        (rest.0, rest.1 + 1)
  }

  /**
   * Refused amounts never close the dialogue: it ends at the first
   * cancel keyword or positive amount, and stays open if there is none.
   */
  lemma {:induction false} RunEndsAtFirstDecisive(turns: seq<Turn>)
    ensures Run(turns).0 == End <==> exists i :: 0 <= i < |turns| && Decisive(turns[i])
    ensures Run(turns).0 == End ==>
              Run(turns).1 >= 1 && Decisive(turns[Run(turns).1 - 1]) &&
              forall i :: 0 <= i < Run(turns).1 - 1 ==> !Decisive(turns[i])
    ensures Run(turns).0 == ConvertAmount ==> Run(turns).1 == |turns|
    decreases |turns|
  {
    if turns != [] {
      var t := turns[0];
      var s := ConvertStep(t.text, t.parsed, t.usdt);
      if s.next != End {
        var tail := turns[1..];
        RunEndsAtFirstDecisive(tail);
        if Run(turns).0 == End {
          var n := Run(tail).1;
          forall i | 0 <= i < Run(turns).1 - 1
            ensures !Decisive(turns[i])
          {
            if i > 0 { assert turns[i] == tail[i - 1]; }
          }
          assert turns[Run(turns).1 - 1] == tail[n - 1];
        } else {
          forall i | 0 <= i < |turns|
            ensures !Decisive(turns[i])
          {
            if i > 0 { assert turns[i] == tail[i - 1]; }
          }
        }
      } else {
        assert Decisive(turns[0]);
      }
    }
  }
}
