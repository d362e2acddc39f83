/** The control logic of `process_data` (main.py:77-111): reject empty input,
    keep the rows whose price is above 50, and report failure when the frame
    has no price column. Building the DataFrame and writing the
    tab-separated text are not modelled; the batch is the kept rows. */
module Processing {
  import opened Wrappers
  import opened Seqs

  /** The row filter's threshold (main.py:98); the comparison is strict. */
  const PriceThreshold: int := 50

  /** The `price` entry of one item: no `price` key at all, a JSON `null`,
      or a number. */
  datatype Price = Absent | Null | Amount(value: int)

  /** One item of the API response; every key other than `price` is carried
      along unchanged. The `price` key itself lives only in `price`: `fields`
      is meant never to hold the key `"price"`, and nothing in the model
      reads that key from it. */
  datatype Record = Record(price: Price, fields: map<string, string>)

  /** The filter condition `df['price'] > 50`. A row without the key holds
      NaN in the price column, and a `null` price becomes NaN, or stays
      `None` in a column with no number; both compare false, so only a number above the threshold keeps its row. */
  predicate AboveThreshold(row: Record) {
    row.price.Amount? && row.price.value > PriceThreshold
  }

  /** The DataFrame built from `data` has a `price` column exactly when some
      row carries the key, even with a `null` value. */
  predicate HasPriceColumn(data: seq<Record>) {
    exists i :: 0 <= i < |data| && !data[i].price.Absent?
  }

  /** Why `process_data` returned `None`: the `ValueError` raised for falsy
      input (main.py:89-90, 107-108), or the `KeyError` that indexing a
      missing column raises, caught by the generic handler (main.py:109-110). */
  datatype ProcessError = NoData | MissingPriceColumn

  /** The rows `df[df['price'] > 50]` keeps, in input order. */
  function Expensive(data: seq<Record>): (kept: seq<Record>)
    ensures |kept| <= |data|
    ensures forall i :: 0 <= i < |kept| ==> AboveThreshold(kept[i]) && kept[i] in data
    ensures forall i :: 0 <= i < |data| && AboveThreshold(data[i]) ==> data[i] in kept
  {
    Filter(data, AboveThreshold)
  }

  /** The filter keeps relative order: filtering the two halves of a split
      and concatenating gives the filtered whole. */
  lemma ExpensiveKeepsOrder(a: seq<Record>, b: seq<Record>)
    ensures Expensive(a + b) == Expensive(a) + Expensive(b)
  {
    FilterAppend(a, b, AboveThreshold);
  }

  /** A single row is kept exactly when its price is above the threshold. */
  lemma ExpensiveSingle(row: Record)
    ensures Expensive([row]) == (if AboveThreshold(row) then [row] else [])
  {
    assert [row][1..] == [];
  }

  /** Rows are only ever dropped, never duplicated. */
  lemma ExpensiveSubMultiset(data: seq<Record>)
    ensures multiset(Expensive(data)) <= multiset(data)
  {
    FilterSubMultiset(data, AboveThreshold);
  }

  /** When no price exceeds the threshold the selection is empty. */
  lemma NothingAboveThreshold(data: seq<Record>)
    requires forall i :: 0 <= i < |data| ==> !AboveThreshold(data[i])
    ensures Expensive(data) == []
  {
    FilterDropsAll(data, AboveThreshold);
  }

  /** When every price exceeds the threshold every row is kept, in order. */
  lemma EverythingAboveThreshold(data: seq<Record>)
    requires forall i :: 0 <= i < |data| ==> AboveThreshold(data[i])
    ensures Expensive(data) == data
  {
    FilterKeepsAll(data, AboveThreshold);
  }

  /** The outcome of `process_data`: the kept rows, or why no buffer was
      produced. An empty selection is still a success, because the text
      buffer is returned (with only a header line) and a buffer object is
      always truthy to the caller. */
  function ProcessData(data: seq<Record>): (r: Result<seq<Record>, ProcessError>)
    ensures r == Failure(NoData) <==> |data| == 0
    ensures r == Failure(MissingPriceColumn) <==> |data| > 0 && forall i :: 0 <= i < |data| ==> data[i].price.Absent?
    ensures r.Success? <==> HasPriceColumn(data)
    ensures r.Success? ==> r.value == Expensive(data)
  {
    if |data| == 0 then Failure(NoData)
    else if !HasPriceColumn(data) then Failure(MissingPriceColumn)
    else Success(Expensive(data))
  }

  /** A non-empty batch whose prices are all `null` has a price column, so
      processing succeeds with an empty selection rather than failing. */
  lemma AllNullPricesSelectNothing(data: seq<Record>)
    requires |data| > 0
    requires forall i :: 0 <= i < |data| ==> data[i].price == Null
    ensures ProcessData(data) == Success([])
  {
    assert !data[0].price.Absent?;
    NothingAboveThreshold(data);
  }
}
