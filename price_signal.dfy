/** The pure half of the price alert: the records fetched from the balancing-market
    price report, the sign-flip classifier applied to the last two of them, and the
    alert text that the classification produces. */
module PriceSignal {

  datatype Option<+T> = None | Some(value: T)

  /** One row of the report after renaming: business date, settlement interval
      (`od_do`) and forecast price (`cen`). Prices are only ever compared with zero. */
  datatype PriceRecord = PriceRecord(date: string, odDo: string, cen: real)

  /** What the comparison of two consecutive prices found. */
  datatype Change = NegativePrice | PositivePrice | NoChange {
    /** The `significant_change` flag of the run. */
    predicate Significant() { this != NoChange }
  }

  const NegativeHeadline := "Cena ujemna."
  const PositiveHeadline := "Cena dodatnia."
  const NoChangeMessage := "No significant change in price values."

  /** The sign-flip rule, applied to the older and the newer of the last two records. */
  function Detect(older: PriceRecord, newer: PriceRecord): (c: Change)
    ensures c == NegativePrice <==> older.cen > 0.0 && newer.cen < 0.0
    ensures c == PositivePrice <==> older.cen < 0.0 && newer.cen > 0.0
    ensures c.Significant() ==> older.cen != 0.0 && newer.cen != 0.0
  {
    if older.cen > 0.0 && newer.cen < 0.0 then NegativePrice
    else if older.cen < 0.0 && newer.cen > 0.0 then PositivePrice
    else NoChange
  }

  /** Independent reference for the rule: the sign of a price, -1, 0 or 1. */
  function Sign(x: real): (s: int)
    ensures -1 <= s <= 1
    ensures s == 0 <==> x == 0.0
    ensures s > 0 <==> x > 0.0
  {
    if x > 0.0 then 1 else if x < 0.0 then -1 else 0
  }

  /** A sign flip: the two prices have opposite, non-zero signs. */
  predicate SignFlip(a: real, b: real) {
    Sign(a) * Sign(b) == -1
  }

  /** The classifier flags exactly the sign flips, and the direction of the flip
      picks the kind: down through zero is a negative price, up is a positive one. */
  lemma DetectIsSignFlip(older: PriceRecord, newer: PriceRecord)
    ensures Detect(older, newer).Significant() <==> SignFlip(older.cen, newer.cen)
    ensures Detect(older, newer) == NegativePrice <==> Sign(older.cen) == 1 && Sign(newer.cen) == -1
    ensures Detect(older, newer) == PositivePrice <==> Sign(older.cen) == -1 && Sign(newer.cen) == 1
  {
  }

  /** A price of exactly zero on either side never counts as a flip. */
  lemma ZeroIsNeverSignificant(older: PriceRecord, newer: PriceRecord)
    requires older.cen == 0.0 || newer.cen == 0.0
    ensures Detect(older, newer) == NoChange
  {
  }

  /** Reading the same two prices in the opposite order swaps the direction. */
  lemma DetectReversed(older: PriceRecord, newer: PriceRecord)
    ensures Detect(older, newer) == NegativePrice <==> Detect(newer, older) == PositivePrice
    ensures Detect(older, newer) == NoChange <==> Detect(newer, older) == NoChange
  {
  }

  predicate StartsWith(s: string, prefix: string) {
    |prefix| <= |s| && s[..|prefix|] == prefix
  }

  /** The text logged and, for a flip, sent by SMS: a headline followed by the
      rendering of the last two records, or the fixed no-change sentence. */
  function Message(kind: Change, table: string): (m: string)
    ensures kind == NegativePrice ==> StartsWith(m, NegativeHeadline + " ")
    ensures kind == PositivePrice ==> StartsWith(m, PositiveHeadline + " ")
    ensures kind.Significant() ==> |table| < |m| && m[|m| - |table|..] == table
    ensures kind == NoChange ==> m == NoChangeMessage
  {
    match kind
    case NegativePrice => NegativeHeadline + " " + table
    case PositivePrice => PositiveHeadline + " " + table
    case NoChange => NoChangeMessage
  }

  /** Reads the kind of change back from a message, by its headline. */
  function KindOf(m: string): (kind: Change)
    ensures kind == NegativePrice ==> StartsWith(m, NegativeHeadline)
    ensures kind == PositivePrice ==> StartsWith(m, PositiveHeadline)
  {
    if StartsWith(m, NegativeHeadline) then NegativePrice
    else if StartsWith(m, PositiveHeadline) then PositivePrice
    else NoChange
  }

  /** Whatever the rendering of the records, a message names its kind unambiguously. */
  lemma KindOfMessage(kind: Change, table: string)
    ensures KindOf(Message(kind, table)) == kind
  {
    var m := Message(kind, table);
    match kind
    case NegativePrice =>
      assert m[..|NegativeHeadline|] == NegativeHeadline;
    case PositivePrice =>
      assert m[5] == 'd' != NegativeHeadline[5];
      assert m[..|PositiveHeadline|] == PositiveHeadline;
    case NoChange =>
      assert m[1] == 'o' != NegativeHeadline[1];
      assert m[1] != PositiveHeadline[1];
  }
}
