/**
 * The iron-fly dashboard generator: it reads back the trader's event log, picks the
 * position to show, and computes the mark-to-market series and the expiry payoff curve.
 *
 * The JSON decoder is a parameter `loads` (`None` when `json.loads` raises); the details
 * it yields have any type `D`.
 */
module IronFlyDashboard {
  import opened Wrappers
  import opened Text
  import opened IronFlyTrading

  // ---------------------------------------------------------------- event log parsing

  /** One parsed event-log row. */
  datatype EventEntry<D> = EventEntry(
    timestamp: string, positionId: string, eventType: string, details: D,
    pnlRealized: int, orderIds: seq<string>)

  /** The comma tokens after the marker, without the empty ones. */
  function NonEmpty(tokens: seq<string>): (r: seq<string>)
    ensures forall t :: t in r <==> t in tokens && t != []
  {
    if |tokens| == 0 then []
    else
      assert forall x :: x in tokens <==> x == tokens[0] || x in tokens[1..];
      (if tokens[0] != [] then [tokens[0]] else []) + NonEmpty(tokens[1..])
  }

  /** The marker that closes the quoted details and carries `pnl_realized`. */
  const Marker: string := "\",0"

  /**
   * The fourth field of a line: the quoted details up to the last marker, then the
   * order ids; `None` when it does not start with a quote, lacks the marker, or the
   * details do not decode.
   */
  function ParseRest<D>(rest: string, loads: string -> Option<D>): Option<(D, seq<string>)> {
    if !StartsWith(rest, "\"") then None
    else match RFind(rest, Marker)
      case None => None
      case Some(endIdx) =>
        var detailsRaw := if endIdx >= 1 then rest[1..endIdx] else [];
        var tail0 := rest[endIdx + 3..];
        var tail := if StartsWith(tail0, ",") then tail0[1..] else tail0;
        var orderIds := NonEmpty(Split(tail, ','));
        match loads(detailsRaw)
        case None => None
        case Some(details) => Some((details, orderIds))
  }

  /** The body of the loop of `parse_event_log` on one line: the entry, or `None` when the line is skipped. */
  function ParseLine<D>(raw: string, loads: string -> Option<D>): Option<EventEntry<D>> {
    var line := Strip(raw);
    if line == [] then None
    else
      var parts := SplitMax(line, ',', 3);
      if |parts| < 4 then None
      else match ParseRest(parts[3], loads)
        case None => None
        case Some((details, orderIds)) => Some(EventEntry(parts[0], parts[1], parts[2], details, 0, orderIds))
  }

  /** The entries of the lines after the header, in file order. */
  function ParsedEntries<D>(lines: seq<string>, loads: string -> Option<D>): seq<EventEntry<D>> {
    if |lines| == 0 then []
    else
      var e := ParseLine(lines[|lines| - 1], loads);
      ParsedEntries(lines[..|lines| - 1], loads) + (if e.Some? then [e.value] else [])
  }

  /** `parse_event_log` over the file's lines: the first line is the header. */
  method ParseEventLog<D>(lines: seq<string>, loads: string -> Option<D>) returns (entries: seq<EventEntry<D>>)
    ensures entries == (if |lines| == 0 then [] else ParsedEntries(lines[1..], loads))
  {
    entries := [];
    if |lines| == 0 {
      return;
    }
    var body := lines[1..];
    var k := 0;
    while k < |body|
      invariant 0 <= k <= |body|
      invariant entries == ParsedEntries(body[..k], loads)
    {
      assert body[..k + 1][..k] == body[..k];
      var e := ParseLine(body[k], loads);
      if e.Some? {
        entries := entries + [e.value];
      }
      k := k + 1;
    }
    assert body[..k] == body;
  }

  /** Blank lines and lines without four comma fields or without the marker are skipped. */
  lemma SkippedLines<D>(raw: string, loads: string -> Option<D>)
    ensures Strip(raw) == [] ==> ParseLine(raw, loads).None?
    ensures |SplitMax(Strip(raw), ',', 3)| < 4 ==> ParseLine(raw, loads).None?
    ensures Strip(raw) != [] && |SplitMax(Strip(raw), ',', 3)| == 4 ==>
      var rest := SplitMax(Strip(raw), ',', 3)[3];
      (!StartsWith(rest, "\"") || RFind(rest, Marker).None?) ==> ParseLine(raw, loads).None?
    ensures ParseLine(raw, loads).Some? ==> ParseLine(raw, loads).value.pnlRealized == 0
  {
  }

  // ---- the round trip with the trader's ENTRY line

  /** A field without a comma splits off the front of a line. */
  lemma SplitMaxField(a: string, r: string, n: nat)
    requires ',' !in a
    ensures SplitMax(a + "," + r, ',', n + 1) == [a] + SplitMax(r, ',', n)
  {
    var s := a + "," + r;
    assert s[|a|] == ',';
    assert s[..|a|] == a;
    assert s[|a| + 1..] == r;
    assert ',' !in s[..|a|];
  }

  lemma {:induction false} SplitJoin(ids: seq<string>)
    requires |ids| > 0 && forall k :: 0 <= k < |ids| ==> ',' !in ids[k]
    ensures Split(Join(",", ids), ',') == ids
  {
    if |ids| > 1 {
      var rest := ids[1..];
      assert forall k :: 0 <= k < |rest| ==> ',' !in rest[k] by {
        assert forall k :: 0 <= k < |rest| ==> rest[k] == ids[k + 1];
      }
      SplitJoin(rest);
      assert Join(",", ids) == ids[0] + "," + Join(",", rest);
      SplitField(ids[0], Join(",", rest));
    } else {
      assert Join(",", ids) == ids[0];
      assert ',' !in ids[0];
    }
  }

  lemma SplitField(a: string, r: string)
    requires ',' !in a
    ensures Split(a + "," + r, ',') == [a] + Split(r, ',')
  {
    var s := a + "," + r;
    assert s[|a|] == ',';
    assert s[..|a|] == a;
    assert s[|a| + 1..] == r;
    assert ',' !in s[..|a|];
  }

  lemma {:induction false} JoinHasNo(ids: seq<string>, c: char)
    requires c != ',' && forall k :: 0 <= k < |ids| ==> c !in ids[k]
    ensures c !in Join(",", ids)
  {
    if |ids| > 1 {
      JoinHasNo(ids[1..], c);
    }
  }

  /** Dropping the empty tokens keeps the others in their order: appending a token appends it, unless empty. */
  lemma {:induction false} NonEmptySnoc(tokens: seq<string>, t: string)
    ensures NonEmpty(tokens + [t]) == NonEmpty(tokens) + (if t != [] then [t] else [])
  {
    if |tokens| == 0 {
      assert tokens + [t] == [t];
      assert [t][1..] == [];
    } else {
      var head: seq<string> := if tokens[0] != [] then [tokens[0]] else [];
      assert (tokens + [t])[0] == tokens[0];
      assert (tokens + [t])[1..] == tokens[1..] + [t];
      assert NonEmpty(tokens + [t]) == head + NonEmpty(tokens[1..] + [t]);
      assert NonEmpty(tokens) == head + NonEmpty(tokens[1..]);
      NonEmptySnoc(tokens[1..], t);
    }
  }

  lemma {:induction false} NonEmptyKeeps(ids: seq<string>)
    requires forall k :: 0 <= k < |ids| ==> ids[k] != []
    ensures NonEmpty(ids) == ids
  {
    if |ids| > 0 {
      NonEmptyKeeps(ids[1..]);
    }
  }

  lemma {:induction false} JoinLast(ids: seq<string>)
    requires |ids| > 0 && ids[|ids| - 1] != []
    ensures Join(",", ids) != [] && Join(",", ids)[|Join(",", ids)| - 1] == ids[|ids| - 1][|ids[|ids| - 1]| - 1]
  {
    if |ids| > 1 {
      JoinLast(ids[1..]);
    }
  }

  /** An order id the log line carries unchanged: non-empty, no comma, no quote, no blank. */
  predicate PlainId(id: string) {
    id != [] && forall i :: 0 <= i < |id| ==> id[i] != ',' && id[i] != '"' && !IsSpace(id[i])
  }

  /** The marker occurs nowhere after the one that closes the details. */
  lemma MarkerIsLast(json: string, tail: string)
    requires '"' !in tail
    ensures RFind("\"" + json + Marker + tail, Marker) == Some(|json| + 1)
  {
    OccursLast("\"" + json, Marker, tail);
  }

  /** The order-id tail of an ENTRY line parses back to the ids. */
  lemma IdsRoundTrip(ids: seq<string>)
    requires forall k :: 0 <= k < |ids| ==> PlainId(ids[k])
    ensures NonEmpty(Split(Join(",", ids), ',')) == ids
  {
    if |ids| > 0 {
      SplitJoin(ids);
      NonEmptyKeeps(ids);
    } else {
      assert Split("", ',') == [""];
    }
  }

  /** The fourth field of an ENTRY line parses back to the details and the order ids. */
  lemma RestRoundTrip<D>(detailsJson: string, orderIds: seq<string>, loads: string -> Option<D>, details: D)
    requires forall k :: 0 <= k < |orderIds| ==> PlainId(orderIds[k])
    requires loads(detailsJson) == Some(details)
    ensures ParseRest("\"" + detailsJson + Marker + ("," + Join(",", orderIds)), loads) == Some((details, orderIds))
  {
    var joined := Join(",", orderIds);
    var rest := "\"" + detailsJson + Marker + ("," + joined);
    JoinHasNo(orderIds, '"');
    RestLayout(detailsJson, joined);
    IdsRoundTrip(orderIds);
    ParseRestFound(rest, |detailsJson| + 1, joined, loads);
  }

  /** A field whose marker is found parses to the decoded details and the ids after it. */
  lemma ParseRestFound<D>(rest: string, endIdx: nat, ids: string, loads: string -> Option<D>)
    requires StartsWith(rest, "\"") && RFind(rest, Marker) == Some(endIdx) && endIdx >= 1
    requires rest[endIdx + 3..] == "," + ids
    ensures loads(rest[1..endIdx]).Some? ==>
      ParseRest(rest, loads) == Some((loads(rest[1..endIdx]).value, NonEmpty(Split(ids, ','))))
  {
    assert ("," + ids)[1..] == ids;
  }

  /** Where the parser finds the details and the order-id text in the fourth field of an ENTRY line. */
  lemma RestLayout(json: string, joined: string)
    requires '"' !in joined
    ensures var rest := "\"" + json + Marker + ("," + joined);
      && StartsWith(rest, "\"")
      && RFind(rest, Marker) == Some(|json| + 1)
      && rest[1..|json| + 1] == json
      && rest[|json| + 4..] == "," + joined
  {
    var tail := "," + joined;
    assert '"' !in tail;
    var rest := "\"" + json + Marker + tail;
    assert rest[..1] == "\"";
    MarkerIsLast(json, tail);
    assert rest[1..|json| + 1] == json;
    assert rest[|json| + 4..] == tail;
  }

  /** An ENTRY line has no blank at either end, so stripping keeps it. */
  lemma EntryLineStripped(isoNow: string, positionId: string, detailsJson: string, orderIds: seq<string>)
    requires isoNow == [] || !IsSpace(isoNow[0])
    requires forall k :: 0 <= k < |orderIds| ==> PlainId(orderIds[k])
    ensures Strip(EntryLine(isoNow, positionId, detailsJson, orderIds)) == EntryLine(isoNow, positionId, detailsJson, orderIds)
  {
    var line := EntryLine(isoNow, positionId, detailsJson, orderIds);
    var joined := Join(",", orderIds);
    assert line == (isoNow + "," + positionId + "," + "ENTRY," + "\"" + detailsJson + "\"," + "0,") + joined;
    if |orderIds| > 0 {
      JoinLast(orderIds);
      var last := orderIds[|orderIds| - 1];
      assert !IsSpace(last[|last| - 1]);
      assert line[|line| - 1] == joined[|joined| - 1];
    } else {
      assert line[|line| - 1] == ',';
    }
    if isoNow == [] {
      assert line[0] == ',';
    } else {
      assert line[0] == isoNow[0];
    }
    StripIdentity(line);
  }

  /** Three comma-free fields split off the front of a line, the rest stays whole. */
  lemma SplitThree(a: string, b: string, c: string, r: string)
    requires ',' !in a && ',' !in b && ',' !in c
    ensures SplitMax(a + "," + (b + "," + (c + "," + r)), ',', 3) == [a, b, c, r]
  {
    SplitTwo(b, c, r);
    SplitMaxField(a, b + "," + (c + "," + r), 2);
  }

  lemma SplitTwo(b: string, c: string, r: string)
    requires ',' !in b && ',' !in c
    ensures SplitMax(b + "," + (c + "," + r), ',', 2) == [b, c, r]
  {
    SplitMaxField(c, r, 0);
    assert SplitMax(c + "," + r, ',', 1) == [c, r];
    SplitMaxField(b, c + "," + r, 1);
  }

  /** An ENTRY line splits into its three leading fields and the rest. */
  lemma EntryLineFields(isoNow: string, positionId: string, detailsJson: string, orderIds: seq<string>)
    requires ',' !in isoNow && ',' !in positionId
    ensures SplitMax(EntryLine(isoNow, positionId, detailsJson, orderIds), ',', 3)
      == [isoNow, positionId, "ENTRY", "\"" + detailsJson + Marker + ("," + Join(",", orderIds))]
  {
    var rest := "\"" + detailsJson + Marker + ("," + Join(",", orderIds));
    assert EntryLine(isoNow, positionId, detailsJson, orderIds) == isoNow + "," + (positionId + "," + ("ENTRY" + "," + rest));
    SplitThree(isoNow, positionId, "ENTRY", rest);
  }

  /**
   * A line written by `log_entry_event` parses back to its timestamp, position id, the
   * event type ENTRY, the details and the order ids, with `pnl_realized` 0 — provided the
   * timestamp and the position id hold no comma, the timestamp does not start with a
   * blank, the order ids are plain, and the decoder reads the details text back.
   */
  lemma EntryLineRoundTrip<D>(isoNow: string, positionId: string, detailsJson: string, orderIds: seq<string>,
                              loads: string -> Option<D>, details: D)
    requires ',' !in isoNow && ',' !in positionId
    requires isoNow == [] || !IsSpace(isoNow[0])
    requires forall k :: 0 <= k < |orderIds| ==> PlainId(orderIds[k])
    requires loads(detailsJson) == Some(details)
    ensures ParseLine(EntryLine(isoNow, positionId, detailsJson, orderIds), loads)
      == Some(EventEntry(isoNow, positionId, "ENTRY", details, 0, orderIds))
  {
    var line := EntryLine(isoNow, positionId, detailsJson, orderIds);
    var rest := "\"" + detailsJson + Marker + ("," + Join(",", orderIds));
    EntryLineStripped(isoNow, positionId, detailsJson, orderIds);
    EntryLineFields(isoNow, positionId, detailsJson, orderIds);
    RestRoundTrip(detailsJson, orderIds, loads, details);
    ParseLineFields(line, isoNow, positionId, "ENTRY", rest, loads);
  }

  /** A stripped line with four comma fields parses to its fields and whatever its fourth field holds. */
  lemma ParseLineFields<D>(line: string, a: string, b: string, c: string, rest: string, loads: string -> Option<D>)
    requires Strip(line) == line && SplitMax(line, ',', 3) == [a, b, c, rest]
    ensures ParseRest(rest, loads).Some? ==>
      ParseLine(line, loads) == Some(EventEntry(a, b, c, ParseRest(rest, loads).value.0, 0, ParseRest(rest, loads).value.1))
  {
    assert line != [];
  }

  /**
   * The trader's ENTRY line, with details encoded by `dumps` and decoded by `loads`,
   * parses back to the entry it records.
   */
  lemma TraderEntryRoundTrip<D>(isoNow: string, stamp: string, millis: seq<nat>,
                                dumps: EntryDetails -> string, loads: string -> Option<EntryDetails>,
                                details: EntryDetails)
    requires ',' !in isoNow && ',' !in stamp && (isoNow == [] || !IsSpace(isoNow[0]))
    requires loads(dumps(details)) == Some(details)
    ensures var ids := seq(|millis|, k requires 0 <= k < |millis| => SimOrderId(millis[k]));
      ParseLine(EntryLine(isoNow, PositionId(stamp), dumps(details), ids), loads)
        == Some(EventEntry(isoNow, PositionId(stamp), "ENTRY", details, 0, ids))
  {
    var ids := seq(|millis|, k requires 0 <= k < |millis| => SimOrderId(millis[k]));
    forall k | 0 <= k < |ids| ensures PlainId(ids[k]) {
      var digits := NatToString(millis[k]);
      assert ids[k] == "SIM_" + digits;
      forall i | 0 <= i < |ids[k]| ensures ids[k][i] != ',' && ids[k][i] != '"' && !IsSpace(ids[k][i]) {
        if i >= 4 {
          assert ids[k][i] == digits[i - 4];
        }
      }
    }
    assert ',' !in PositionId(stamp) by {
      assert forall i :: 0 <= i < |PositionId(stamp)| ==> PositionId(stamp)[i] == ("BNF_IFLY_" + stamp)[i];
      forall i | 0 <= i < |PositionId(stamp)| ensures PositionId(stamp)[i] != ',' {
        if i >= 9 {
          assert PositionId(stamp)[i] == stamp[i - 9];
        }
      }
    }
    EntryLineRoundTrip(isoNow, PositionId(stamp), dumps(details), ids, loads, details);
  }

  // ---------------------------------------------------------------- latest entry

  /** The details of the chosen ENTRY with the three keys `load_latest_entry` adds. */
  datatype LatestEntry<D> = LatestEntry(details: D, timestamp: string, positionId: string, eventLogPath: string)

  /** The rows the lookup keeps: ENTRY rows, of the given position when one is named. */
  predicate Wanted<D>(e: EventEntry<D>, position: string) {
    e.eventType == "ENTRY" && (position == [] || e.positionId == position)
  }

  function Filtered<D>(entries: seq<EventEntry<D>>, position: string): (r: seq<EventEntry<D>>)
    ensures forall i :: 0 <= i < |r| ==> r[i] in entries && Wanted(r[i], position)
    ensures forall i :: 0 <= i < |entries| && Wanted(entries[i], position) ==> entries[i] in r
  {
    if |entries| == 0 then []
    else
      var init := Filtered(entries[..|entries| - 1], position);
      var last := entries[|entries| - 1];
      assert forall i :: 0 <= i < |entries| - 1 ==> entries[i] == entries[..|entries| - 1][i];
      init + (if Wanted(last, position) then [last] else [])
  }

  const DetailsTypeError: string := "details of the latest entry do not support item assignment"

  /**
   * `load_latest_entry` over the parsed entries; `position` is the position id argument,
   * where `None` and the empty string both mean "any position". `isDict` tells which
   * decoded details are JSON objects: storing the three keys into any other value (a list,
   * a text, a number, a boolean or null) raises TypeError.
   */
  function LoadLatestEntry<D>(entries: seq<EventEntry<D>>, position: Option<string>, path: string,
                              isDict: D -> bool): Result<LatestEntry<D>, string>
  {
    var pid := position.GetOr([]);
    if |entries| == 0 then Failure("No entries found in event log")
    else
      var rows := Filtered(entries, pid);
      if |rows| == 0 then
        if pid != [] then Failure("Position ID " + pid + " not found in event log")
        else Failure("No ENTRY events found in event log")
      else
        var row := rows[|rows| - 1];
        if !isDict(row.details) then Failure(DetailsTypeError)
        else Success(LatestEntry(row.details, row.timestamp, row.positionId, path))
  }

  /** The index of the last wanted row, if any. */
  function LastWanted<D>(entries: seq<EventEntry<D>>, position: string): (r: Option<nat>)
    ensures r.None? ==> forall i :: 0 <= i < |entries| ==> !Wanted(entries[i], position)
    ensures r.Some? ==> r.value < |entries| && Wanted(entries[r.value], position)
    ensures r.Some? ==> forall j :: r.value < j < |entries| ==> !Wanted(entries[j], position)
  {
    if |entries| == 0 then None
    else if Wanted(entries[|entries| - 1], position) then Some(|entries| - 1)
    else LastWanted(entries[..|entries| - 1], position)
  }

  /** The last row the filter keeps is the last wanted row. */
  lemma {:induction false} FilteredLast<D>(entries: seq<EventEntry<D>>, position: string)
    ensures |Filtered(entries, position)| == 0 <==> LastWanted(entries, position).None?
    ensures |Filtered(entries, position)| > 0 ==>
      Filtered(entries, position)[|Filtered(entries, position)| - 1] == entries[LastWanted(entries, position).value]
  {
    if |entries| > 0 && !Wanted(entries[|entries| - 1], position) {
      FilteredLast(entries[..|entries| - 1], position);
    }
  }

  /**
   * The lookup fails when the log has no entries, when it has no wanted row, or when the
   * last wanted row's details are not an object; otherwise it returns that row's details,
   * its timestamp and position id, and the log's path.
   */
  lemma LoadLatestEntrySpec<D>(entries: seq<EventEntry<D>>, position: Option<string>, path: string,
                               isDict: D -> bool)
    ensures var pid := position.GetOr([]);
      match LoadLatestEntry(entries, position, path, isDict)
      case Failure(msg) =>
        (|entries| == 0 && msg == "No entries found in event log")
        || (|entries| > 0 && (forall i :: 0 <= i < |entries| ==> !Wanted(entries[i], pid))
            && msg == (if pid != [] then "Position ID " + pid + " not found in event log"
                       else "No ENTRY events found in event log"))
        || (exists i :: 0 <= i < |entries| && Wanted(entries[i], pid)
              && (forall j :: i < j < |entries| ==> !Wanted(entries[j], pid))
              && !isDict(entries[i].details) && msg == DetailsTypeError)
      case Success(r) =>
        exists i :: 0 <= i < |entries| && Wanted(entries[i], pid)
          && (forall j :: i < j < |entries| ==> !Wanted(entries[j], pid))
          && isDict(entries[i].details)
          && r == LatestEntry(entries[i].details, entries[i].timestamp, entries[i].positionId, path)
  {
    var pid := position.GetOr([]);
    FilteredLast(entries, pid);
  }

  // ---------------------------------------------------------------- strikes

  /** A strike as stored in the details: a number or a text (a trading symbol). */
  datatype StrikeValue = IntStrike(i: int) | FloatStrike(f: real) | TextStrike(s: string)

  /** `int(x)` on a float: truncation toward zero. */
  function Truncate(x: real): int {
    if x >= 0.0 then x.Floor else -((-x).Floor)
  }

  /** `extract_strike` as written: all the digits of the text, read as one number. */
  function ExtractStrikeAsWritten(v: StrikeValue): (r: Result<int, string>)
    ensures r.Failure? <==> v.TextStrike? && NoDigits(v.s)
    ensures v.IntStrike? ==> r == Success(v.i)
  {
    match v
    case IntStrike(i) => Success(i)
    case FloatStrike(f) => Success(Truncate(f))
    case TextStrike(s) =>
      DigitsEmptyIff(s);
      var digits := Digits(s);
      if digits == [] then Failure("Unable to parse strike from " + s) else Success(DigitsValue(digits))
  }

  /** The text with its trailing non-digits removed. */
  function DropNonDigitTail(s: string): (r: string)
    ensures |r| <= |s| && r == s[..|r|]
    ensures r != [] ==> IsDigit(r[|r| - 1])
    ensures forall i :: |r| <= i < |s| ==> !IsDigit(s[i])
  {
    if s != [] && !IsDigit(s[|s| - 1]) then DropNonDigitTail(s[..|s| - 1]) else s
  }

  /** The longest run of digits that ends the text. */
  function TrailingDigits(s: string): (r: string)
    ensures forall i :: 0 <= i < |r| ==> IsDigit(r[i])
    ensures |r| <= |s| && r == s[|s| - |r|..]
  {
    if s != [] && IsDigit(s[|s| - 1]) then TrailingDigits(s[..|s| - 1]) + [s[|s| - 1]] else []
  }

  /** The last run of digits in the text. */
  function LastDigitRun(s: string): (r: string)
    ensures forall i :: 0 <= i < |r| ==> IsDigit(r[i])
    ensures r == [] <==> NoDigits(s)
  {
    var kept := DropNonDigitTail(s);
    if kept != [] then
      assert IsDigit(s[|kept| - 1]);
      TrailingDigits(kept)
    else
      TrailingDigits(kept)
  }

  /**
   * `extract_strike`, corrected: a trading symbol's strike is its last run of digits
   * (the digits of the expiry year come earlier).
   */
  function ExtractStrike(v: StrikeValue): (r: Result<int, string>)
    ensures r.Failure? <==> v.TextStrike? && NoDigits(v.s)
    ensures v.IntStrike? ==> r == Success(v.i)
  {
    match v
    case IntStrike(i) => Success(i)
    case FloatStrike(f) => Success(Truncate(f))
    case TextStrike(s) =>
      var digits := LastDigitRun(s);
      if digits == [] then Failure("Unable to parse strike from " + s) else Success(DigitsValue(digits))
  }

  predicate NoDigits(s: string) {
    forall i :: 0 <= i < |s| ==> !IsDigit(s[i])
  }

  lemma {:induction false} DropNoDigitSuffix(a: string, b: string)
    requires NoDigits(b) && a != [] && IsDigit(a[|a| - 1])
    ensures DropNonDigitTail(a + b) == a
    decreases |b|
  {
    if b == [] {
      assert a + b == a;
    } else {
      assert (a + b)[..|a + b| - 1] == a + b[..|b| - 1];
      DropNoDigitSuffix(a, b[..|b| - 1]);
    }
  }

  lemma {:induction false} TrailingOfRun(a: string, d: string)
    requires forall i :: 0 <= i < |d| ==> IsDigit(d[i])
    requires a == [] || !IsDigit(a[|a| - 1])
    ensures TrailingDigits(a + d) == d
    decreases |d|
  {
    if d == [] {
      assert a + d == a;
    } else {
      assert (a + d)[..|a + d| - 1] == a + d[..|d| - 1];
      TrailingOfRun(a, d[..|d| - 1]);
    }
  }

  /** The strike symbol of a monthly BankNifty option: underlying, year, month, strike, type. */
  function MonthlySymbol(year: nat, month: string, strike: nat, kind: string): string {
    "BANKNIFTY" + NatToString(year) + month + NatToString(strike) + kind
  }

  /**
   * The corrected extraction reads the strike back from a monthly symbol whose month
   * and type are non-empty and digit-free (as in "BANKNIFTY25NOV48000CE").
   */
  lemma ExtractStrikeFromSymbol(year: nat, month: string, strike: nat, kind: string)
    requires month != [] && NoDigits(month) && NoDigits(kind)
    ensures ExtractStrike(TextStrike(MonthlySymbol(year, month, strike, kind))) == Success(strike)
  {
    var a := "BANKNIFTY" + NatToString(year) + month;
    var d := NatToString(strike);
    assert MonthlySymbol(year, month, strike, kind) == (a + d) + kind;
    assert (a + d)[|a + d| - 1] == d[|d| - 1];
    DropNoDigitSuffix(a + d, kind);
    assert a[|a| - 1] == month[|month| - 1];
    TrailingOfRun(a, d);
    NatToStringValue(strike);
  }

  function Pow10(n: nat): (r: nat)
    ensures r >= 1
  {
    if n == 0 then 1 else 10 * Pow10(n - 1)
  }

  /**
   * As written, the year's digits are read in front of the strike: the symbol of
   * year 25, month NOV, strike 48000 gives 25·10^5 + 48000 = 2548000, and for any
   * year other than 0 the answer differs from the corrected one.
   */
  lemma ExtractStrikeAsWrittenReadsYear(year: nat, month: string, strike: nat, kind: string)
    requires NoDigits(month) && NoDigits(kind)
    ensures ExtractStrikeAsWritten(TextStrike(MonthlySymbol(year, month, strike, kind)))
      == Success(year * Pow10(|NatToString(strike)|) + strike)
    ensures month != [] && year > 0 ==>
      ExtractStrikeAsWritten(TextStrike(MonthlySymbol(year, month, strike, kind)))
      != ExtractStrike(TextStrike(MonthlySymbol(year, month, strike, kind)))
  {
    AsWrittenValue(year, month, strike, kind);
    if month != [] && year > 0 {
      ExtractStrikeFromSymbol(year, month, strike, kind);
      ProductPositive(year, Pow10(|NatToString(strike)|));
    }
  }

  lemma AsWrittenValue(year: nat, month: string, strike: nat, kind: string)
    requires NoDigits(month) && NoDigits(kind)
    ensures ExtractStrikeAsWritten(TextStrike(MonthlySymbol(year, month, strike, kind)))
      == Success(year * Pow10(|NatToString(strike)|) + strike)
  {
    SymbolDigits(year, month, strike, kind);
    YearStrikeValue(year, strike);
    ReadAllDigitsOf(MonthlySymbol(year, month, strike, kind), NatToString(year) + NatToString(strike));
  }

  lemma ReadAllDigitsOf(s: string, d: string)
    requires Digits(s) == d && d != []
    ensures ExtractStrikeAsWritten(TextStrike(s)) == Success(DigitsValue(d))
  {
  }

  /** Reading the year's digits followed by the strike's gives the year-prefixed number. */
  lemma YearStrikeValue(year: nat, strike: nat)
    ensures NatToString(year) + NatToString(strike) != []
    ensures AllDigits(NatToString(year) + NatToString(strike))
    ensures DigitsValue(NatToString(year) + NatToString(strike)) == year * Pow10(|NatToString(strike)|) + strike
  {
    var y, k := NatToString(year), NatToString(strike);
    assert AllDigits(y) && AllDigits(k);
    DigitsValueConcat(y, k);
    NatToStringValue(year);
    NatToStringValue(strike);
  }

  lemma ProductPositive(a: nat, b: nat)
    requires a >= 1 && b >= 1
    ensures a * b >= 1
  {
  }

  /** The digits of a monthly symbol are those of its year followed by those of its strike. */
  lemma SymbolDigits(year: nat, month: string, strike: nat, kind: string)
    requires NoDigits(month) && NoDigits(kind)
    ensures Digits(MonthlySymbol(year, month, strike, kind)) == NatToString(year) + NatToString(strike)
  {
    var b := "BANKNIFTY";
    assert NoDigits(b) by {
      forall i | 0 <= i < |b| ensures !IsDigit(b[i]) {
        assert b[i] in {'B', 'A', 'N', 'K', 'I', 'F', 'T', 'Y'};
      }
    }
    FieldDigits(b, NatToString(year), month, NatToString(strike), kind);
  }

  /** Digit-free fields contribute nothing to the digits of a concatenation. */
  lemma FieldDigits(b: string, y: string, m: string, k: string, t: string)
    requires NoDigits(b) && NoDigits(m) && NoDigits(t) && AllDigits(y) && AllDigits(k)
    ensures Digits(b + y + m + k + t) == y + k
  {
    DigitsOfNoDigits(b);
    DigitsOfNoDigits(m);
    DigitsOfNoDigits(t);
    DigitsOfDigits(y);
    DigitsOfDigits(k);
    DigitsConcat(b, y);
    assert Digits(b + y) == y;
    DigitsConcat(b + y, m);
    assert Digits(b + y + m) == y;
    DigitsConcat(b + y + m, k);
    assert Digits(b + y + m + k) == y + k;
    DigitsConcat(b + y + m + k, t);
  }

  lemma {:induction false} DigitsOfNoDigits(s: string)
    requires NoDigits(s)
    ensures Digits(s) == []
  {
    if s != [] {
      DigitsOfNoDigits(s[1..]);
    }
  }

  lemma {:induction false} DigitsOfDigits(s: string)
    requires AllDigits(s)
    ensures Digits(s) == s
  {
    if s != [] {
      DigitsOfDigits(s[1..]);
      assert s == [s[0]] + s[1..];
    }
  }

  predicate AllDigits(s: string) {
    forall i :: 0 <= i < |s| ==> IsDigit(s[i])
  }

  lemma AllDigitsConcat(a: string, b: string)
    requires AllDigits(a) && AllDigits(b)
    ensures AllDigits(a + b)
  {
    forall i | 0 <= i < |a + b| ensures IsDigit((a + b)[i]) {
      if i < |a| { assert (a + b)[i] == a[i]; } else { assert (a + b)[i] == b[i - |a|]; }
    }
  }

  /** Reading two digit strings one after the other shifts the first by the second's length. */
  lemma {:induction false} DigitsValueConcat(a: string, b: string)
    requires AllDigits(a) && AllDigits(b)
    ensures AllDigits(a + b)
    ensures DigitsValue(a + b) == DigitsValue(a) * Pow10(|b|) + DigitsValue(b)
    decreases |b|
  {
    AllDigitsConcat(a, b);
    if b == [] {
      assert a + b == a;
    } else {
      var b' := b[..|b| - 1];
      assert AllDigits(b');
      assert (a + b)[..|a + b| - 1] == a + b';
      assert (a + b)[|a + b| - 1] == b[|b| - 1];
      DigitsValueConcat(a, b');
      ShiftStep(DigitsValue(a), Pow10(|b'|), DigitsValue(b'), b[|b| - 1] as int - '0' as int);
    }
  }

  lemma ShiftStep(va: int, p: int, vb: int, c: int)
    ensures (va * p + vb) * 10 + c == va * (10 * p) + (vb * 10 + c)
  {
  }

  lemma {:induction false} DigitsConcat(a: string, b: string)
    ensures Digits(a + b) == Digits(a) + Digits(b)
  {
    if a == [] {
      assert a + b == b;
    } else {
      assert (a + b)[1..] == a[1..] + b;
      DigitsConcat(a[1..], b);
    }
  }

  // ---------------------------------------------------------------- mark to market

  /** `compute_mtm` at one point; a missing price (NaN) stays missing. */
  function MtmPoint(price: Option<real>, entry: Option<real>, lot: int, side: string): Option<real> {
    if price.None? || entry.None? then None
    else if side == "short" then Some((entry.value - price.value) * lot as real)
    else Some((price.value - entry.value) * lot as real)
  }

  /** `compute_mtm` over a price series. */
  function ComputeMtm(series: seq<Option<real>>, entry: Option<real>, lot: int, side: string): (r: seq<Option<real>>)
    ensures |r| == |series|
  {
    seq(|series|, i requires 0 <= i < |series| => MtmPoint(series[i], entry, lot, side))
  }

  /** A short leg's P&L is the negation of the long one's: any side other than "short" is long. */
  lemma MtmSides(series: seq<Option<real>>, entry: Option<real>, lot: int, side: string)
    requires side != "short"
    ensures forall i :: 0 <= i < |series| ==>
      ComputeMtm(series, entry, lot, side)[i] == ComputeMtm(series, entry, lot, "long")[i]
      && (ComputeMtm(series, entry, lot, "short")[i].Some? <==> series[i].Some? && entry.Some?)
      && (ComputeMtm(series, entry, lot, "short")[i].Some? ==>
            ComputeMtm(series, entry, lot, "short")[i].value == -ComputeMtm(series, entry, lot, "long")[i].value)
  {
  }

  /** A row of the state log: the four legs' last traded prices. */
  datatype StateRow = StateRow(shortCall: Option<real>, shortPut: Option<real>, longCall: Option<real>, longPut: Option<real>)

  /** The entry prices: the first state row. */
  type EntryPrices = StateRow

  function AddOpt(a: Option<real>, b: Option<real>): Option<real> {
    if a.Some? && b.Some? then Some(a.value + b.value) else None
  }

  /** `build_mtm_series`: the sum of the four legs' MTM, short legs sold and long legs bought. */
  function BuildMtmSeries(rows: seq<StateRow>, entry: EntryPrices, lot: int): (r: seq<Option<real>>)
    ensures |r| == |rows|
  {
    var sc := ComputeMtm(seq(|rows|, i requires 0 <= i < |rows| => rows[i].shortCall), entry.shortCall, lot, "short");
    var sp := ComputeMtm(seq(|rows|, i requires 0 <= i < |rows| => rows[i].shortPut), entry.shortPut, lot, "short");
    var lc := ComputeMtm(seq(|rows|, i requires 0 <= i < |rows| => rows[i].longCall), entry.longCall, lot, "long");
    var lp := ComputeMtm(seq(|rows|, i requires 0 <= i < |rows| => rows[i].longPut), entry.longPut, lot, "long");
    seq(|rows|, i requires 0 <= i < |rows| => AddOpt(AddOpt(AddOpt(sc[i], sp[i]), lc[i]), lp[i]))
  }

  predicate Complete(r: StateRow) {
    r.shortCall.Some? && r.shortPut.Some? && r.longCall.Some? && r.longPut.Some?
  }

  /** Per unit held: what the short legs lost in price and the long legs gained. */
  function UnitMtm(row: StateRow, entry: EntryPrices): real
    requires Complete(row) && Complete(entry)
  {
    (entry.shortCall.value - row.shortCall.value) + (entry.shortPut.value - row.shortPut.value)
    + (row.longCall.value - entry.longCall.value) + (row.longPut.value - entry.longPut.value)
  }

  /**
   * A point of the MTM series is present exactly when the row and the entry prices are
   * complete, and is then the lot size times the per-unit MTM; the first row's MTM is 0.
   */
  lemma MtmSeriesSpec(rows: seq<StateRow>, entry: EntryPrices, lot: int)
    ensures forall i :: 0 <= i < |rows| ==>
      (BuildMtmSeries(rows, entry, lot)[i].Some? <==> Complete(rows[i]) && Complete(entry))
    ensures forall i :: 0 <= i < |rows| && Complete(rows[i]) && Complete(entry) ==>
      BuildMtmSeries(rows, entry, lot)[i].value == UnitMtm(rows[i], entry) * lot as real
    ensures |rows| > 0 && Complete(rows[0]) && entry == rows[0] ==> BuildMtmSeries(rows, entry, lot)[0] == Some(0.0)
  {
    forall i | 0 <= i < |rows| && Complete(rows[i]) && Complete(entry)
      ensures BuildMtmSeries(rows, entry, lot)[i].value == UnitMtm(rows[i], entry) * lot as real
    {
      var row := rows[i];
      Distribute4(entry.shortCall.value - row.shortCall.value, entry.shortPut.value - row.shortPut.value,
                  row.longCall.value - entry.longCall.value, row.longPut.value - entry.longPut.value, lot as real);
    }
  }

  lemma Distribute4(a: real, b: real, c: real, d: real, l: real)
    ensures a * l + b * l + c * l + d * l == (a + b + c + d) * l
  {
  }

  // ---------------------------------------------------------------- payoff curve

  /** The strikes of the four legs as recorded in the details. */
  datatype LegStrikes = LegStrikes(shortCall: StrikeValue, shortPut: StrikeValue, longCall: StrikeValue, longPut: StrikeValue)

  /** What `compute_payoff_curve` reads from the details; a missing key is `None`. */
  datatype PayoffDetails = PayoffDetails(strikes: LegStrikes, wingDistance: Option<int>, lotSize: Option<int>)

  datatype PayoffPoint = PayoffPoint(underlying: int, payoff: Option<real>)

  function Max0(x: real): real { if x > 0.0 then x else 0.0 }

  /** The expiry P&L per unit of the four legs at the underlying price. */
  function UnitPayoff(sc: int, sp: int, lc: int, lp: int, e: EntryPrices, price: int): real
    requires Complete(e)
  {
    (e.shortCall.value - Max0((price - sc) as real)) + (e.shortPut.value - Max0((sp - price) as real))
    + (Max0((price - lc) as real) - e.longCall.value) + (Max0((lp - price) as real) - e.longPut.value)
  }

  /** The total expiry payoff at one price; missing entry prices make it missing. */
  function PayoffAt(sc: int, sp: int, lc: int, lp: int, e: EntryPrices, lot: int, price: int): Option<real> {
    if !Complete(e) then None
    else
      var pnlSc := (e.shortCall.value - Max0((price - sc) as real)) * lot as real;
      var pnlSp := (e.shortPut.value - Max0((sp - price) as real)) * lot as real;
      var pnlLc := (Max0((price - lc) as real) - e.longCall.value) * lot as real;
      var pnlLp := (Max0((lp - price) as real) - e.longPut.value) * lot as real;
      Some(pnlSc + pnlSp + pnlLc + pnlLp)
  }

  /** The number of points of `range(lo, hi, 100)`. */
  function RangeCount(lo: int, hi: int): nat {
    if lo >= hi then 0 else (hi - lo + 99) / 100
  }

  lemma RangeCountSpec(lo: int, hi: int)
    ensures RangeCount(lo, hi) == 0 <==> lo >= hi
    ensures RangeCount(lo, hi) > 0 ==> lo + 100 * (RangeCount(lo, hi) - 1) < hi <= lo + 100 * RangeCount(lo, hi)
  {
  }

  function MinInt(a: int, b: int): int { if a <= b then a else b }
  function MaxInt(a: int, b: int): int { if a >= b then a else b }

  /**
   * Which strike reader the payoff curve uses: `ReadAllDigits` is `extract_strike` as
   * written, `ReadLastRun` the corrected reader.
   */
  datatype StrikeReader = ReadAllDigits | ReadLastRun

  function ReadStrike(reader: StrikeReader, v: StrikeValue): Result<int, string> {
    match reader
    case ReadAllDigits => ExtractStrikeAsWritten(v)
    case ReadLastRun => ExtractStrike(v)
  }

  /** The parsed strikes, or the first extraction error. */
  function ParsedStrikes(s: LegStrikes, reader: StrikeReader): Result<(int, int, int, int), string> {
    var sc :- ReadStrike(reader, s.shortCall);
    var sp :- ReadStrike(reader, s.shortPut);
    var lc :- ReadStrike(reader, s.longCall);
    var lp :- ReadStrike(reader, s.longPut);
    Success((sc, sp, lc, lp))
  }

  /** The strikes as the trader stores them: the four legs' monthly trading symbols. */
  function SymbolStrikes(year: nat, month: string, sc: nat, sp: nat, lc: nat, lp: nat): LegStrikes {
    var ce: string, pe: string := "CE", "PE";
    LegStrikes(TextStrike(MonthlySymbol(year, month, sc, ce)), TextStrike(MonthlySymbol(year, month, sp, pe)),
               TextStrike(MonthlySymbol(year, month, lc, ce)), TextStrike(MonthlySymbol(year, month, lp, pe)))
  }

  /** A strike with the year's digits written in front of it. */
  function YearPrefixed(year: nat, strike: nat): int {
    year * Pow10(|NatToString(strike)|) + strike
  }

  /**
   * For the trading symbols the trader stores as strikes, the corrected reader gives the
   * four strikes, while the reader as written puts the year's digits in front of each, so
   * the as-written curve is drawn around prices such as 2548000 rather than 48000.
   */
  lemma PayoffStrikesOfSymbols(year: nat, month: string, sc: nat, sp: nat, lc: nat, lp: nat)
    requires month != [] && NoDigits(month)
    ensures ParsedStrikes(SymbolStrikes(year, month, sc, sp, lc, lp), ReadLastRun) == Success((sc, sp, lc, lp))
    ensures ParsedStrikes(SymbolStrikes(year, month, sc, sp, lc, lp), ReadAllDigits)
         == Success((YearPrefixed(year, sc), YearPrefixed(year, sp), YearPrefixed(year, lc), YearPrefixed(year, lp)))
  {
    var ce: string, pe: string := "CE", "PE";
    assert NoDigits(ce) && NoDigits(pe) by {
      assert !IsDigit(ce[0]) && !IsDigit(ce[1]) && !IsDigit(pe[0]) && !IsDigit(pe[1]);
    }
    var st := SymbolStrikes(year, month, sc, sp, lc, lp);
    SymbolLegReads(year, month, sc, ce);
    SymbolLegReads(year, month, sp, pe);
    SymbolLegReads(year, month, lc, ce);
    SymbolLegReads(year, month, lp, pe);
    assert st.shortCall == TextStrike(MonthlySymbol(year, month, sc, ce));
    assert st.shortPut == TextStrike(MonthlySymbol(year, month, sp, pe));
    assert st.longCall == TextStrike(MonthlySymbol(year, month, lc, ce));
    assert st.longPut == TextStrike(MonthlySymbol(year, month, lp, pe));
  }

  /** What each reader gives for one leg's trading symbol. */
  lemma SymbolLegReads(year: nat, month: string, strike: nat, kind: string)
    requires month != [] && NoDigits(month) && NoDigits(kind)
    ensures ReadStrike(ReadLastRun, TextStrike(MonthlySymbol(year, month, strike, kind))) == Success(strike)
    ensures ReadStrike(ReadAllDigits, TextStrike(MonthlySymbol(year, month, strike, kind))) == Success(YearPrefixed(year, strike))
  {
    ExtractStrikeFromSymbol(year, month, strike, kind);
    AsWrittenValue(year, month, strike, kind);
  }

  /**
   * `compute_payoff_curve`: the points from min(long put, short put) − wing up to
   * max(long call, short call) + wing, every 100, each with the four legs' expiry payoff.
   * The strikes are read with `reader` (`ReadAllDigits` as written).
   */
  method ComputePayoffCurve(details: PayoffDetails, entry: EntryPrices, reader: StrikeReader)
    returns (r: Result<seq<PayoffPoint>, string>)
    ensures r.Failure? <==> ParsedStrikes(details.strikes, reader).Failure?
    ensures r.Success? ==>
      var (sc, sp, lc, lp) := ParsedStrikes(details.strikes, reader).value;
      var wing := details.wingDistance.GetOr(DefaultConfig.wingDistanceDefault);
      var lot := details.lotSize.GetOr(DefaultConfig.lotSizeFallback);
      var lo, hi := MinInt(lp, sp) - wing, MaxInt(lc, sc) + wing;
      && |r.value| == RangeCount(lo, hi + 100)
      && forall k :: 0 <= k < |r.value| ==>
           r.value[k] == PayoffPoint(lo + 100 * k, PayoffAt(sc, sp, lc, lp, entry, lot, lo + 100 * k))
  {
    var wing := details.wingDistance.GetOr(DefaultConfig.wingDistanceDefault);
    var lot := details.lotSize.GetOr(DefaultConfig.lotSizeFallback);
    var parsed := ParsedStrikes(details.strikes, reader);
    if parsed.Failure? {
      return Failure(parsed.error);
    }
    var (sc, sp, lc, lp) := parsed.value;
    var priceMin := MinInt(lp, sp) - wing;
    var priceMax := MaxInt(lc, sc) + wing;
    var data: seq<PayoffPoint> := [];
    var price := priceMin;
    while price < priceMax + 100
      invariant price == priceMin + 100 * |data|
      invariant |data| <= RangeCount(priceMin, priceMax + 100)
      invariant price < priceMax + 100 ==> |data| < RangeCount(priceMin, priceMax + 100)
      invariant price >= priceMax + 100 ==> |data| == RangeCount(priceMin, priceMax + 100)
      invariant forall k :: 0 <= k < |data| ==>
        data[k] == PayoffPoint(priceMin + 100 * k, PayoffAt(sc, sp, lc, lp, entry, lot, priceMin + 100 * k))
      decreases priceMax + 100 - price
    {
      data := data + [PayoffPoint(price, PayoffAt(sc, sp, lc, lp, entry, lot, price))];
      price := price + 100;
    }
    r := Success(data);
  }

  /**
   * An iron fly (both short legs at K, wings at K ± w) never pays more than the net
   * credit and never loses more than the wing minus the credit, per unit.
   */
  lemma IronFlyPayoffBounds(k: int, w: nat, e: EntryPrices, price: int)
    requires Complete(e)
    ensures var credit := e.shortCall.value + e.shortPut.value - e.longCall.value - e.longPut.value;
      credit - w as real <= UnitPayoff(k, k, k + w, k - w, e, price) <= credit
  {
    var credit := e.shortCall.value + e.shortPut.value - e.longCall.value - e.longPut.value;
    var up := Max0((price - k) as real);
    var down := Max0((k - price) as real);
    var upWing := Max0((price - (k + w)) as real);
    var downWing := Max0(((k - w) - price) as real);
    assert UnitPayoff(k, k, k + w, k - w, e, price) == credit - ((up - upWing) + (down - downWing));
    // the body loses |price - k|, capped at the wing distance
    if price >= k + w {
      assert up - upWing == w as real && down - downWing == 0.0;
    } else if price >= k {
      assert 0.0 <= up - upWing <= w as real && down - downWing == 0.0;
    } else if price >= k - w {
      assert up - upWing == 0.0 && 0.0 <= down - downWing <= w as real;
    } else {
      assert up - upWing == 0.0 && down - downWing == w as real;
    }
  }

  /** The total payoff is the lot size times the per-unit payoff. */
  lemma PayoffScales(sc: int, sp: int, lc: int, lp: int, e: EntryPrices, lot: int, price: int)
    requires Complete(e)
    ensures PayoffAt(sc, sp, lc, lp, e, lot, price).Some?
    ensures PayoffAt(sc, sp, lc, lp, e, lot, price).value == UnitPayoff(sc, sp, lc, lp, e, price) * lot as real
  {
    var a := e.shortCall.value - Max0((price - sc) as real);
    var b := e.shortPut.value - Max0((sp - price) as real);
    var c := Max0((price - lc) as real) - e.longCall.value;
    var d := Max0((lp - price) as real) - e.longPut.value;
    var l := lot as real;
    assert UnitPayoff(sc, sp, lc, lp, e, price) == a + b + c + d;
    assert PayoffAt(sc, sp, lc, lp, e, lot, price).value == a * l + b * l + c * l + d * l;
    Distribute4(a, b, c, d, l);
  }
}
