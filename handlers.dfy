/*
 * The stateless handlers: start_command (welcome text with every rate)
 * and the exact-label dispatch of handle_message.  The reply keyboard
 * and the sending of replies are not modelled; a handler's result is
 * the text it would send, or None when it sends nothing.
 */
module Handlers {
  import opened Rates
  import opened Batch
  import opened Messages

  /** What handle_message does with a text. */
  datatype Command = SingleRate(asset: Asset) | AllRates | ConvertEntry | Instructions

  /** The button label of a single asset, "<ticker>/KZT". */
  function Label(a: Asset): (s: string)
    ensures s == Symbol(a) + "/KZT"
  {
    match a
    case USDT => "USDT/KZT"
    case BTC => "BTC/KZT"
    case ETH => "ETH/KZT"
    case TON => "TON/KZT"
  }

  const AllRatesLabel: string := "Все курсы"
  const ConvertLabel: string := "Конвертировать USDT"

  /** Every text handle_message recognises. */
  const Labels: seq<string> := [Label(USDT), Label(BTC), Label(ETH), Label(TON), AllRatesLabel, ConvertLabel]

  const AllRatesHeader: string := "Актуальные курсы:\n\n"
  const AllRatesFailure: string := "Не удалось получить курсы. Попробуйте позже."
  const Greeting: string := "Добро пожаловать! 👋\n\n"
  const WelcomeHeader: string := Greeting + AllRatesHeader
  const WelcomeFailure: string := Greeting + AllRatesFailure
  const InstructionsText: string := "Выберите криптовалюту для получения курса или нажмите 'Конвертировать USDT':"

  /** The if-chain of handle_message: exact string comparison, first match wins. */
  function Route(text: string): (c: Command)
    ensures forall a :: c == SingleRate(a) <==> text == Label(a)
    ensures c == AllRates <==> text == AllRatesLabel
    ensures c == ConvertEntry <==> text == ConvertLabel
    ensures c == Instructions <==> text !in Labels
  {
    if text == Label(USDT) then SingleRate(USDT)
    else if text == Label(BTC) then SingleRate(BTC)
    else if text == Label(ETH) then SingleRate(ETH)
    else if text == Label(TON) then SingleRate(TON)
    else if text == AllRatesLabel then AllRates
    else if text == ConvertLabel then ConvertEntry
    else Instructions
  }

  /** The reply to a single-asset label. */
  function SingleRateText(a: Asset, rate: Option<real>, fmt: real -> string): (text: string)
  {
    if Truthy(rate) then "Актуальный курс: 1 " + Symbol(a) + " = " + fmt(rate.value) + " KZT"
    else "Не удалось получить курс " + Symbol(a) + ". Попробуйте позже."
  }

  /** A listing under a header, or the failure text when the batch came back empty. */
  function ListingText(header: string, failure: string, rates: seq<(Asset, real)>, fmt: real -> string): (text: string)
  {
    if rates == [] then failure else header + Lines(rates, LineRenderer(fmt))
  }

  /** The reply handle_message sends for a text; None for the conversion label. */
  function MessageReply(text: string, net: Network, fmt: real -> string): (reply: Option<string>)
  {
    match Route(text)
    case SingleRate(a) => Some(SingleRateText(a, RateOf(a, net), fmt))
    case AllRates => Some(ListingText(AllRatesHeader, AllRatesFailure, Collect(Order, net), fmt))
    case ConvertEntry => None
    case Instructions => Some(InstructionsText)
  }

  /** handle_message. */
  method HandleMessage(text: string, net: Network, fmt: real -> string) returns (reply: Option<string>)
    ensures reply == MessageReply(text, net, fmt)
    ensures reply.None? <==> text == ConvertLabel
  {
    var command := Route(text);
    match command
    case SingleRate(a) =>
      var ex := net(a);
      var rate := Resolve(Symbol(a), ex.primary, ex.usdLeg, ex.fxLeg).rate;
      reply := Some(SingleRateText(a, rate, fmt));
    case AllRates =>
      var rates := GetAllRates(net);
      if rates != [] {
        var listing := AppendLines(AllRatesHeader, rates, LineRenderer(fmt));
        reply := Some(listing);
      } else {
        reply := Some(AllRatesFailure);
      }
    case ConvertEntry =>
      reply := None;
    case Instructions =>
      reply := Some(InstructionsText);
  }

  /** start_command: the welcome text with the batch listing, or the welcome failure text. */
  method StartCommand(net: Network, fmt: real -> string) returns (msg: string)
    ensures msg == ListingText(WelcomeHeader, WelcomeFailure, Collect(Order, net), fmt)
  {
    var rates := GetAllRates(net);
    if rates != [] {
      msg := AppendLines(WelcomeHeader, rates, LineRenderer(fmt));
    } else {
      msg := WelcomeFailure;
    }
  }

  /** A single-asset label depends on that asset's network answers and on nothing else. */
  lemma SingleLabelIsLocal(a: Asset, net1: Network, net2: Network, fmt: real -> string)
    requires net1(a) == net2(a)
    ensures MessageReply(Label(a), net1, fmt) == MessageReply(Label(a), net2, fmt)
    ensures MessageReply(Label(a), net1, fmt).Some?
  {
  }

  /** Unrecognised text gets the instructions whatever the network answers. */
  lemma OtherTextGetsInstructions(text: string, net: Network, fmt: real -> string)
    requires text !in Labels
    ensures MessageReply(text, net, fmt) == Some(InstructionsText)
  {
  }

  /** The listing text is the failure text exactly when no asset resolved truthy. */
  lemma ListingFailsIffNothingResolved(header: string, failure: string, net: Network, fmt: real -> string)
    requires exists k :: 0 <= k < |header| && k < |failure| && header[k] != failure[k]
    ensures ListingText(header, failure, Collect(Order, net), fmt) == failure <==>
              forall a :: !Truthy(RateOf(a, net))
  {
    var rates := Collect(Order, net);
    if rates != [] {
      assert (rates[0].0, rates[0].1) in rates;
      CollectMembers(Order, net, rates[0].0, rates[0].1);
      var k :| 0 <= k < |header| && k < |failure| && header[k] != failure[k];
      assert (header + Lines(rates, LineRenderer(fmt)))[k] == header[k];
    } else {
      forall a
        ensures !Truthy(RateOf(a, net))
      {
        if RateOf(a, net).Some? {
          CollectMembers(Order, net, a, RateOf(a, net).value);
        }
      }
    }
  }

  /** "Все курсы" and /start report failure only when every asset failed. */
  lemma BatchRepliesFailOnlyWhenAllFail(net: Network, fmt: real -> string)
    ensures MessageReply(AllRatesLabel, net, fmt) == Some(AllRatesFailure) <==>
              forall a :: !Truthy(RateOf(a, net))
    ensures ListingText(WelcomeHeader, WelcomeFailure, Collect(Order, net), fmt) == WelcomeFailure <==>
              forall a :: !Truthy(RateOf(a, net))
  {
    assert AllRatesHeader[0] != AllRatesFailure[0];
    ListingFailsIffNothingResolved(AllRatesHeader, AllRatesFailure, net, fmt);
    var k := |Greeting|;
    assert WelcomeHeader[k] == AllRatesHeader[0] && WelcomeFailure[k] == AllRatesFailure[0];
    ListingFailsIffNothingResolved(WelcomeHeader, WelcomeFailure, net, fmt);
  }
}
