/*
 * The rate listings that start_command and the "Все курсы" branch of
 * handle_message build by appending one line per resolved asset.
 *
 * The two-decimal rendering of a rate is a parameter `fmt`.  The listing
 * is stated for any per-entry renderer, and RateLine is the one the bot
 * uses.
 */
module Messages {
  import opened Rates

  /** "1 <ticker> = <rate> KZT" followed by a newline. */
  function RateLine(entry: (Asset, real), fmt: real -> string): (line: string)
  {
    "1 " + Symbol(entry.0) + " = " + fmt(entry.1) + " KZT\n"
  }

  /** The bot's renderer for one batch entry. */
  function LineRenderer(fmt: real -> string): (render: ((Asset, real)) -> string)
  {
    entry => RateLine(entry, fmt)
  }

  /** The listing of a batch, one rendered line per entry in the batch's order. */
  function Lines<T>(entries: seq<T>, render: T -> string): (listing: string)
    decreases |entries|
  {
    if entries == [] then ""
    else Lines(entries[..|entries| - 1], render) + render(entries[|entries| - 1])
  }

  /** The loop that appends one rendered line per batch entry to a header. */
  method AppendLines<T>(header: string, entries: seq<T>, render: T -> string) returns (msg: string)
    ensures msg == header + Lines(entries, render)
  {
    msg := header;
    for i := 0 to |entries|
      invariant msg == header + Lines(entries[..i], render)
    {
      LinesSnoc(entries, i, render);
      msg := msg + render(entries[i]);
    }
    assert entries[..|entries|] == entries;
  }

  /** Listing one more entry of a batch appends that entry's line. */
  lemma LinesSnoc<T>(entries: seq<T>, i: nat, render: T -> string)
    requires i < |entries|
    ensures Lines(entries[..i + 1], render) == Lines(entries[..i], render) + render(entries[i])
  {
    assert entries[..i + 1][..i] == entries[..i];
  }

  /** Listing two batches one after the other is listing their concatenation. */
  lemma {:induction false} LinesAppend<T>(a: seq<T>, b: seq<T>, render: T -> string)
    ensures Lines(a + b, render) == Lines(a, render) + Lines(b, render)
    decreases |b|
  {
    if b != [] {
      var b' := b[..|b| - 1];
      var last := b[|b| - 1];
      assert (a + b)[..|a + b| - 1] == a + b';
      assert (a + b)[|a + b| - 1] == last;
      LinesAppend(a, b', render);
      calc {
        Lines(a + b, render);
        Lines(a + b', render) + render(last);
        Lines(a, render) + Lines(b', render) + render(last);
        Lines(a, render) + Lines(b, render);
      }
    } else {
      assert a + b == a;
    }
  }

  /** Every entry of the batch appears as its own line, after the lines of the entries before it. */
  lemma LinesAt<T>(before: seq<T>, entry: T, after: seq<T>, render: T -> string)
    ensures Lines(before + [entry] + after, render) == Lines(before, render) + render(entry) + Lines(after, render)
  {
    LinesAppend(before + [entry], after, render);
    LinesSnoc(before + [entry], |before|, render);
    assert (before + [entry])[..|before|] == before;
    assert (before + [entry])[..|before| + 1] == before + [entry];
  }
}
