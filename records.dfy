/** The saved-quote history that the pricing service appends to and the history service reads and deletes from. */
module Records {
  import opened Wrappers
  import opened Seqs
  import opened Money

  /** A persisted quote. `date` is the creation instant as an integer timestamp. */
  datatype SavedQuote = SavedQuote(id: int, date: int, homeSize: string, frequency: string, total: real)

  /** The one history array both services import; created from the initial mock data. */
  class QuoteLog {
    var records: seq<SavedQuote>

    constructor (initial: seq<SavedQuote>)
      ensures records == initial
    {
      records := initial;
    }
  }

  /** `findIndex(q => q.Id === id)`: the first position holding that Id, or None. */
  function FirstWithId(s: seq<SavedQuote>, id: int): (r: Option<nat>)
    ensures r.None? <==> forall i :: 0 <= i < |s| ==> s[i].id != id
    ensures r.Some? ==> r.value < |s| && s[r.value].id == id
    ensures r.Some? ==> forall i :: 0 <= i < r.value ==> s[i].id != id
  {
    FirstIndex(s, (q: SavedQuote) => q.id == id)
  }

  /** `reduce((sum, quote) => sum + quote.total, 0)`, folding from the left. */
  function Revenue(s: seq<SavedQuote>): real {
    if s == [] then 0.0 else Revenue(s[..|s| - 1]) + s[|s| - 1].total
  }

  /** Revenue splits over concatenation. */
  lemma {:induction false} RevenueAppend(a: seq<SavedQuote>, b: seq<SavedQuote>)
    ensures Revenue(a + b) == Revenue(a) + Revenue(b)
  {
    if b == [] {
      assert a + b == a;
    } else {
      assert (a + b)[..|a + b| - 1] == a + b[..|b| - 1];
      RevenueAppend(a, b[..|b| - 1]);
    }
  }

  /** Removing one record takes exactly its total out of the revenue. */
  lemma RevenueWithout(s: seq<SavedQuote>, i: nat)
    requires i < |s|
    ensures Revenue(s[..i] + s[i + 1..]) == Revenue(s) - s[i].total
  {
    assert s == s[..i] + ([s[i]] + s[i + 1..]);
    RevenueAppend(s[..i], [s[i]] + s[i + 1..]);
    RevenueAppend([s[i]], s[i + 1..]);
    RevenueAppend(s[..i], s[i + 1..]);
    assert Revenue([s[i]]) == s[i].total by {
      assert [s[i]][..0] == [];
    }
  }

  /** Totals already in whole cents sum to whole cents, so rounding the revenue changes nothing:
      totalRevenue is then the exact sum of the saved totals. */
  lemma {:induction false} RevenueInWholeCents(s: seq<SavedQuote>)
    requires forall i :: 0 <= i < |s| ==> TwoDecimals(s[i].total)
    ensures TwoDecimals(Revenue(s))
    ensures Round2(Revenue(s)) == Revenue(s)
  {
    if s != [] {
      var front := s[..|s| - 1];
      assert forall i :: 0 <= i < |front| ==> front[i] == s[i];
      RevenueInWholeCents(front);
      TwoDecimalsAdd(Revenue(front), s[|s| - 1].total);
    }
    Round2Exact(Revenue(s));
  }
}
