/**
 * The parsed contents of a bus card (FullCardData.kt): one result per
 * sector read, each a success carrying the decoded fields or an error
 * message, plus the errors of the raw sector read itself.
 */
module CardData {

  /** Sector 5 stores the year in 4 bits. */
  type Nibble = y: int | 0 <= y < 16

  /** Sector 0: the card's organisation code and serial. */
  datatype Sector0Result =
    | Sector0Success(uc: int, cardId: int)
    | Sector0Error(message: string)

  /** Sector 5: the current credit and the last operation written to the card. */
  datatype Sector5Result =
    | Sector5Success(credit: int, payment: int, preEtebar: int, op: int, year: Nibble, month: int,
                     day: int, hour: int, minute: int, etebar: int, deviceID: int)
    | Sector5Error(message: string)

  /** One entry of the card's own transaction history. */
  datatype TransactionRecord = TransactionRecord(
    etebar: int, op: int, year: int, month: int, day: int, remEtebar: int, did: int, hour: int, minute: int)

  /** Sector 6: the card's transaction history. */
  datatype Sector6Result =
    | Sector6Success(transactions: seq<TransactionRecord>)
    | Sector6Error(message: string)

  datatype FullCardData = FullCardData(
    sector0: Sector0Result, sector5: Sector5Result, sector6: Sector6Result, rawDataErrors: seq<string>)

  /** The constructor with its default: no raw read errors. */
  function NewFullCardData(s0: Sector0Result, s5: Sector5Result, s6: Sector6Result): (d: FullCardData)
    ensures d.rawDataErrors == []
    ensures d.sector0 == s0 && d.sector5 == s5 && d.sector6 == s6
  {
    FullCardData(s0, s5, s6, [])
  }

  /** `hasAnyData`: at least one sector decoded. */
  function HasAnyData(d: FullCardData): (r: bool)
    ensures !r <==> d.sector0.Sector0Error? && d.sector5.Sector5Error? && d.sector6.Sector6Error?
  {
    d.sector0.Sector0Success? || d.sector5.Sector5Success? || d.sector6.Sector6Success?
  }

  /** The entry `getAllParsingErrors` adds for a failed sector. */
  function Labelled(sector: string, message: string): (r: string)
    ensures |r| == |sector| + 9 + |message|
    ensures r[..7] == "Sector " && r[|r| - |message|..] == message
  {
    "Sector " + sector + ": " + message
  }

  /** Sector 0's contribution to the error list. */
  function Sector0Errors(s: Sector0Result): seq<string> {
    if s.Sector0Error? then [Labelled("0", s.message)] else []
  }

  function Sector5Errors(s: Sector5Result): seq<string> {
    if s.Sector5Error? then [Labelled("5", s.message)] else []
  }

  function Sector6Errors(s: Sector6Result): seq<string> {
    if s.Sector6Error? then [Labelled("6", s.message)] else []
  }

  /** The error list, sectors 0, 5 and 6 in that order and then the raw read errors. */
  function ParsingErrors(d: FullCardData): seq<string> {
    Sector0Errors(d.sector0) + Sector5Errors(d.sector5) + Sector6Errors(d.sector6) + d.rawDataErrors
  }

  /** The number of sectors that failed to decode. */
  function FailedSectors(d: FullCardData): (n: nat)
    ensures n <= 3
  {
    (if d.sector0.Sector0Error? then 1 else 0)
    + (if d.sector5.Sector5Error? then 1 else 0)
    + (if d.sector6.Sector6Error? then 1 else 0)
  }

  /** `getAllParsingErrors`: fills a fresh list with `add` and `addAll`. */
  method GetAllParsingErrors(d: FullCardData) returns (errors: seq<string>)
    ensures errors == ParsingErrors(d)
    ensures |errors| == FailedSectors(d) + |d.rawDataErrors|
    ensures errors[|errors| - |d.rawDataErrors|..] == d.rawDataErrors
  {
    errors := [];
    if d.sector0.Sector0Error? {
      errors := errors + [Labelled("0", d.sector0.message)];
    }
    if d.sector5.Sector5Error? {
      errors := errors + [Labelled("5", d.sector5.message)];
    }
    if d.sector6.Sector6Error? {
      errors := errors + [Labelled("6", d.sector6.message)];
    }
    errors := errors + d.rawDataErrors;
  }

  /** The list is empty exactly when every sector decoded and the raw read reported nothing. */
  lemma ParsingErrorsEmptyIff(d: FullCardData)
    ensures ParsingErrors(d) == [] <==>
      d.sector0.Sector0Success? && d.sector5.Sector5Success? && d.sector6.Sector6Success? && d.rawDataErrors == []
  {
  }

  /** A card read whose three sectors all decoded, built with the default, reports no errors and has data. */
  lemma AllDecodedNoErrors(s0: Sector0Result, s5: Sector5Result, s6: Sector6Result)
    requires s0.Sector0Success? && s5.Sector5Success? && s6.Sector6Success?
    ensures ParsingErrors(NewFullCardData(s0, s5, s6)) == []
    ensures HasAnyData(NewFullCardData(s0, s5, s6))
  {
  }

  /** When only sector 5 failed, its labelled message is the first entry. */
  lemma Sector5ErrorFirstWhenAlone(d: FullCardData)
    requires d.sector0.Sector0Success? && d.sector5.Sector5Error?
    ensures ParsingErrors(d)[0] == "Sector 5: " + d.sector5.message
  {
  }

  /** Every error list has a labelled entry for each failed sector before any raw entry. */
  lemma LabelledEntriesComeFirst(d: FullCardData, i: int)
    requires 0 <= i < FailedSectors(d)
    ensures |ParsingErrors(d)| == FailedSectors(d) + |d.rawDataErrors|
    ensures ParsingErrors(d)[i][..7] == "Sector "
  {
  }
}
