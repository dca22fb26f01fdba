# usdtbot decision logic in Dafny

A model of the decision logic of a Telegram bot that quotes USDT, BTC, ETH and TON in Kazakh tenge (KZT) and converts an amount of USDT to KZT (`usdtbot.py`).

- **Rate resolution** (`rates.dfy`, module `Rates`). This is `get_crypto_rate`. It looks the symbol up in the fixed asset table and asks the direct crypto-to-KZT quote first. On failure it falls back to the asset's USD price times the USD-to-KZT rate. Each HTTP exchange is an input value of type `Response`: transport error, rejected status, undecodable body, or a decoded body with the expected field. The field abstracts the key lookup plus `float()`, and can be missing, a number, non-numeric (ValueError), or `WrongType`: any exception outside the three caught classes, such as TypeError for a null value or OverflowError for an integer too large for a float. The result is a `Resolution`. It carries the rate (or none) and the legs that were requested, in order. That trace is what lets the model state that the fallback is not invoked and that the FX leg is not requested.
- **Batch resolution** (`batch.dfy`, module `Batch`). This is `get_all_rates`, a loop over USDT, BTC, ETH, TON. It keeps, in that order, each asset whose rate is truthy (neither None nor zero). The result is a sequence of pairs, which keeps the dictionary's insertion order.
- **Rate listings** (`messages.dfy`, module `Messages`). This is the `+=` loop that `start_command` and the "Все курсы" branch use to append one line per batch entry.
- **Conversion dialogue** (`conversation.dfy`, module `Conversation`). These are `convert_start`, `convert_amount` and `cancel`. Each is modelled as the next state (`CONVERT_AMOUNT` or `END`) it would return, and what its reply would report, if its reply keyboard could be built (see "## Left out").
- **Message handlers** (`handlers.dfy`, module `Handlers`). These are the exact-label dispatch of `handle_message` and the welcome text of `start_command`.

The network answers for an asset are a parameter (`Exchange`, and `Network = Asset -> Exchange` for the batch). Two things are parameters rather than modelled: what `float()` makes of the user's text (`parsed: Option<real>`), and the two-decimal rendering of a rate (`fmt: real -> string`).

In three places the model follows the code where a rate service might be expected to behave otherwise:
- the code has no failure reasons, only `None`;
- a primary quote of zero or a negative number is returned as is, and no fallback is tried (`ZeroPrimaryIsFinal`);
- callers then treat zero as a failure because they test `if rate:`.

## Model

| member | source | states |
|---|---|---|
| `Rates.AssetOf` | usdtbot.py:31-34 | a symbol in the table maps to the asset with that ticker; any other symbol maps to none |
| `Rates.TablesInjective` | usdtbot.py:31 | distinct assets have distinct tickers and provider ids, and the lookup inverts the ticker |
| `Rates.Fallback` | usdtbot.py:45-65 | the USD leg is asked first; the FX leg is asked exactly when the USD leg gave a number; each leg is asked at most once; a rate is returned exactly when both legs gave one, and it is their product |
| `Rates.Resolve` | usdtbot.py:29-65 | unknown symbol: no request and no rate; known symbol: the primary leg is asked first; a usable primary quote is returned unchanged with no fallback; any primary failure returns exactly the fallback's rate, after the fallback's own requests, and succeeds exactly when both legs do; each leg is asked at most once (one fallback step, no retry); no partial product is ever returned |
| `Rates.UsdtKztRate` | usdtbot.py:67-68 | the USDT rate always asks the primary leg; it returns the primary quote, with no fallback, when there is one, and otherwise exactly the fallback's result and requests |
| `Rates.ZeroPrimaryIsFinal` | usdtbot.py:39-40 | a zero primary quote is returned as is, without fallback, and is not truthy |
| `Rates.TetherScenarios` | usdtbot.py:36-58 | a direct quote of 450.5 yields 450.5; an empty primary body with USD 1.0 and KZT 449.0 yields 449.0 |
| `Rates.ResolveAsWritten` | usdtbot.py:29-65 | as written, the call raises exactly when a requested leg raises an exception outside the caught classes (`WrongType`: TypeError, OverflowError), and it leaves at that leg: an escaping primary skips the fallback, an escaping USD leg skips the FX leg; otherwise it returns what `Resolve` returns |
| `Rates.NullPrimaryFieldEscapes` | usdtbot.py:39-43 | a null `kzt` field makes the code as written raise without asking the fallback, which would have given 449.0 |
| `Batch.GetAllRates` | usdtbot.py:70-76 | the loop returns the entries collected by resolving USDT, BTC, ETH, TON in turn and keeping truthy rates |
| `Batch.CollectMembers` | usdtbot.py:72-75 | an entry (asset, rate) is kept exactly when the asset is asked for, its rate is truthy and the entry carries that rate |
| `Batch.CollectKeysFrom` | usdtbot.py:72-75 | the batch never invents an asset: every entry's asset was asked for |
| `Batch.CollectInOrder` | usdtbot.py:72-75 | assets asked for in batch order come out in batch order, at most once each |
| `Batch.AllRatesExactly` | usdtbot.py:70-76 | the batch holds exactly the assets with a truthy rate, each with its own rate, ordered USDT, BTC, ETH, TON |
| `Batch.OtherFailuresDoNotMatter` | usdtbot.py:72-75 | whether and with which rate an asset is included depends only on that asset's network answers |
| `Batch.BitcoinOutage` | usdtbot.py:70-76 | with every BTC request failing and the others quoting directly, the batch is USDT, ETH, TON |
| `Messages.AppendLines` | usdtbot.py:90-92 | the loop yields the header followed by one rate line per batch entry, in order |
| `Messages.LinesAppend` | usdtbot.py:91-92 | listing two batches in a row equals listing their concatenation |
| `Messages.LinesAt` | usdtbot.py:166-168 | every batch entry appears as its own line, between the lines of the entries before and after it |
| `Conversation.ConvertStart` | usdtbot.py:101-106 | entering the dialogue prompts for an amount, moves to `CONVERT_AMOUNT` and requests no rate |
| `Conversation.ConvertStep` | usdtbot.py:108-135 | "Отмена" ends the dialogue with no request; an unparsable or non-positive amount keeps it open with the matching refusal; a positive amount ends it, making exactly the requests of the USDT rate, with `amount * rate` when the rate is truthy and a failure notice otherwise |
| `Conversation.Cancel` | usdtbot.py:137-142 | the cancel handler ends the dialogue, reports the cancellation and requests no rate |
| `Conversation.CancelKeywordIsCancel` | usdtbot.py:137-142 | the cancel keyword inside the dialogue has the same effect as the cancel handler: end, no request |
| `Conversation.RunEndsAtFirstDecisive` | usdtbot.py:110-135 | over any run of messages the dialogue ends exactly at the first cancel keyword or positive amount, and stays open when there is none |
| `Handlers.Route` | usdtbot.py:147-177 | each of the four asset labels selects exactly that asset; "Все курсы" selects the batch; "Конвертировать USDT" selects the dialogue entry; every other text selects the instructions |
| `Handlers.HandleMessage` | usdtbot.py:144-180 | the reply is the one the routed branch builds from the resolved rates; no reply exactly for "Конвертировать USDT" |
| `Handlers.StartCommand` | usdtbot.py:86-99 | the welcome text lists the batch result, or gives the failure text when the batch is empty |
| `Handlers.SingleLabelIsLocal` | usdtbot.py:147-162 | the reply to an asset label depends only on that asset's network answers |
| `Handlers.OtherTextGetsInstructions` | usdtbot.py:175-177 | unrecognised text gets the instructions, whatever the network answers |
| `Handlers.ListingFailsIffNothingResolved` | usdtbot.py:163-172 | a listing is the failure text exactly when no asset resolved to a truthy rate |
| `Handlers.BatchRepliesFailOnlyWhenAllFail` | usdtbot.py:89-96 | "Все курсы" and /start report failure exactly when every asset failed |

## Left out

- HTTP requests, timeouts and `raise_for_status`. Each exchange is an input `Response`; a status is only "accepted" or "rejected".
- JSON shapes beyond the one looked-up field. A body whose container is not an object is folded into the field kinds `Missing` or `WrongType`, according to which exception the lookup raises.
- Python `float()` parsing of the user's text, including "nan" and "inf". It becomes the input `parsed`. Rates and amounts are unbounded reals, so no IEEE rounding, NaN or infinity is modelled.
- The `:.2f` rendering, which becomes the parameter `fmt`. Conversion replies are reported as the structured `Outcome` rather than their exact text, including the text of the refusal error.
- The reply keyboards (`get_reply_keyboard`, the "Отмена" keyboard) and every `reply_text` call.
- `KeyboardButton` and `ReplyKeyboardMarkup` are never imported (usdtbot.py:3-4). As written, building a keyboard therefore raises NameError at lines 97, 104, 111, 128, 133, 140 and 178. So no reply is ever sent:
  - in `start_command`, and in every `handle_message` branch except "Конвертировать USDT", the `except Exception` only logs;
  - `convert_start`, `convert_amount` and `cancel` raise before their `return`, so no state is returned either.
  The model gives the text and the transition these handlers would produce if the keyboards were defined.
- The Telegram `Application`, the Flask webhook, handler registration and `main`. The latter refers to an undefined `conv_handler`, so no dialogue handler is actually registered. The NameError this raises (usdtbot.py:195) is caught at line 199 and logged at line 200, so `app.run` (line 198) is never reached and the webhook server never starts.
- The `error_handler`, logging, and the `BOT_TOKEN` check.
- The per-user dialogue store and its serialisation. The dialogue library owns them. Only the transitions returned by the handlers are modelled, and `Run` feeds one user's messages in sequence.
- The `try/except Exception` around `start_command` and `handle_message`. It only logs; the NameError above and, as written, a resolver exception both end there without a reply.
- As written, an exception that escapes `get_crypto_rate` (the finding below) also aborts `get_all_rates`, which has no `try` (usdtbot.py:70-76). It also escapes `convert_amount`, whose `except ValueError` does not catch it (usdtbot.py:120, 130). The model's batch and dialogue use the corrected `Resolve`, so they do not show these aborts.
- `CONVERT_AMOUNT = range(1)` binds a range object rather than 0. The model treats it as an opaque state name.
- The result dictionary of `get_all_rates` is a sequence of pairs. Each asset is inserted at most once, so insertion order and contents coincide.

## Findings

| source | as written | input that shows it | evidently intended | confidence | as-written member | corrected member |
|---|---|---|---|---|---|---|
| usdtbot.py:39-43 | only `RequestException`, `KeyError` and `ValueError` are caught, so a `TypeError` from `float(None)` (or an OverflowError from a huge integer) escapes `get_crypto_rate` without trying the fallback (same for the USD and FX legs at lines 51 and 57) | primary body `{"tether": {"kzt": null}}`, USD leg `{"tether": {"usd": 1.0}}`, FX leg `{"rates": {"KZT": 449.0}}` | a malformed primary field falls back like a missing one, and the function returns a rate or None | medium; not executed | `Rates.ResolveAsWritten`, `Rates.NullPrimaryFieldEscapes` | `Rates.Resolve` |

The rest of the model uses `Rates.Resolve`.
