/**
 * The public flight board: the generated flight numbers, the 12-hour clock
 * it shows, the search over the current list, and the sample list that
 * replaces an empty or failed fetch. Dates reach this model already taken
 * apart by the browser: `localDate` renders the date part and `localClock`
 * gives the local hour and minute of a date string.
 */
module HomePage {
  import opened Opt
  import opened Text
  import opened ListView

  type Hour = h: nat | h < 24
  type Minute = m: nat | m < 60

  datatype Clock = Clock(hours: Hour, minutes: Minute)

  datatype FlightType = Departures | Arrivals

  /**
   * A row of the board as the backend or the sample list provides it;
   * `destination` is the `to` of a departure, `origin` the `from` of an
   * arrival.
   */
  datatype BoardFlight = BoardFlight(id: nat, airline: string, flightNumber: string, date: string,
                                     destination: string, origin: string, status: string)

  // ---------------------------------------------------------------------
  // Generated flight numbers

  /** `word.charAt(0).toUpperCase()`: "" for an empty word. */
  function FirstLetter(word: string): (r: string)
    ensures |r| <= 1
    ensures word != [] ==> r == [UpperChar(word[0])]
  {
    if word == [] then [] else [UpperChar(word[0])]
  }

  /**
   * The airline part of a generated number: the first letter of the first
   * word, then the first letter of the second word if there is one, else
   * the second letter of the first word; all upper-cased.
   */
  function AirlineCode(airline: string): (code: string)
    ensures |code| <= 2
    ensures forall i :: 0 <= i < |code| ==> !IsLowerAscii(code[i])
  {
    var parts := Split(airline, ' ');
    var second := if |parts| > 1 then FirstLetter(parts[1])
                  else if |parts[0]| > 1 then [UpperChar(parts[0][1])]
                  else [];
    FirstLetter(parts[0]) + second
  }

  /** A one-word name of two or more letters gives its first two letters. */
  lemma AirlineCodeOneWord(airline: string)
    requires ' ' !in airline && |airline| >= 2
    ensures AirlineCode(airline) == [UpperChar(airline[0]), UpperChar(airline[1])]
  {
    SplitNoSeparator(airline, ' ');
  }

  /** A name of two or more words gives the initials of the first two. */
  lemma AirlineCodeTwoWords(first: string, rest: string)
    requires ' ' !in first && first != []
    requires rest != [] && rest[0] != ' '
    ensures AirlineCode(first + " " + rest) == [UpperChar(first[0]), UpperChar(rest[0])]
  {
    SplitAfterSeparator(first, rest, ' ');
    assert first + " " + rest == first + [' '] + rest;
  }

  /**
   * A name with no usable second letter gives a single initial: a one-letter
   * name, or a first word followed by an empty second word (a trailing
   * space, or two spaces in a row).
   */
  lemma AirlineCodeOneLetter(c: char)
    requires c != ' '
    ensures AirlineCode([c]) == [UpperChar(c)]
  {
    SplitNoSeparator([c], ' ');
  }

  lemma AirlineCodeEmptySecondWord(first: string, rest: string)
    requires ' ' !in first && first != []
    requires rest == [] || rest[0] == ' '
    ensures AirlineCode(first + " " + rest) == [UpperChar(first[0])]
  {
    SplitAfterSeparator(first, rest, ' ');
    assert first + " " + rest == first + [' '] + rest;
    assert Split(rest, ' ')[0] == [];
  }

  /** Two consecutive digits start at index `i`. */
  predicate DigitPairAt(s: string, i: int)
  {
    0 <= i < |s| - 1 && IsDigit(s[i]) && IsDigit(s[i + 1])
  }

  /** `s.match(/\d{2}/)`: the leftmost pair of consecutive digits, if any. */
  function FirstDigitPair(s: string): (r: Option<string>)
    ensures r.None? <==> forall i :: !DigitPairAt(s, i)
    ensures r.Some? ==> exists i :: DigitPairAt(s, i) && r.value == s[i..i + 2]
                                    && forall j :: 0 <= j < i ==> !DigitPairAt(s, j)
    decreases |s|
  {
    if |s| < 2 then
      None
    else if IsDigit(s[0]) && IsDigit(s[1]) then
      assert DigitPairAt(s, 0);
      Some(s[..2])
    else
      var r := FirstDigitPair(s[1..]);
      assert Shift: forall i :: DigitPairAt(s[1..], i) <==> DigitPairAt(s, i + 1) by {
        forall i ensures DigitPairAt(s[1..], i) <==> DigitPairAt(s, i + 1) {
          if 0 <= i < |s[1..]| - 1 {
            assert s[1..][i] == s[i + 1] && s[1..][i + 1] == s[i + 2];
          }
        }
      }
      assert r.None? ==> forall i :: !DigitPairAt(s, i) by {
        if r.None? {
          forall i ensures !DigitPairAt(s, i) {
            if i > 0 {
              assert !DigitPairAt(s[1..], i - 1);
            }
          }
        }
      }
      assert r.Some? ==> exists i :: DigitPairAt(s, i) && r.value == s[i..i + 2]
                                     && forall j :: 0 <= j < i ==> !DigitPairAt(s, j) by {
        if r.Some? {
          var k :| DigitPairAt(s[1..], k) && r.value == s[1..][k..k + 2]
                   && forall j :: 0 <= j < k ==> !DigitPairAt(s[1..], j);
          assert DigitPairAt(s, k + 1);
          assert s[1..][k..k + 2] == s[k + 1..k + 3];
          forall j | 0 <= j < k + 1 ensures !DigitPairAt(s, j) {
            if j > 0 {
              assert !DigitPairAt(s[1..], j - 1);
            }
          }
        }
      }
      r
  }

  /** The number part: the first two consecutive digits, or "00" when there are none. */
  function NumberPart(flightNumber: string): (r: string)
    ensures |r| == 2 && forall i :: 0 <= i < 2 ==> IsDigit(r[i])
    ensures FirstDigitPair(flightNumber).None? ==> r == "00"
    ensures FirstDigitPair(flightNumber).Some? ==> r == FirstDigitPair(flightNumber).value
  {
    var pair := FirstDigitPair(flightNumber);
    if pair.Some? then pair.value else "00"
  }

  /**
   * `generateFlightNumber`: the airline code, then digits only. The first
   * two digits are the number part and the rest reads back as the flight id.
   */
  function GenerateFlightNumber(f: BoardFlight): (n: string)
    ensures var k := |AirlineCode(f.airline)|;
            && k + 3 <= |n|
            && n[..k] == AirlineCode(f.airline)
            && IsDigits(n[k..])
            && n[k..k + 2] == NumberPart(f.flightNumber)
            && ToNumber(n[k + 2..]) == f.id
  {
    var code, digits, id := AirlineCode(f.airline), NumberPart(f.flightNumber), NatToString(f.id);
    CodeThenDigits(code, digits, id);
    ToNumberNatToString(f.id);
    code + digits + id
  }

  /** Text followed by two digits and a digit string: each part is found back at its place. */
  lemma CodeThenDigits(code: string, digits: string, id: string)
    requires |digits| == 2 && IsDigit(digits[0]) && IsDigit(digits[1]) && IsDigits(id)
    ensures var n := code + digits + id;
            && n[..|code|] == code
            && IsDigits(n[|code|..])
            && n[|code|..|code| + 2] == digits
            && n[|code| + 2..] == id
  {
    var n := code + digits + id;
    assert n[|code|..] == digits + id;
    assert n[|code| + 2..] == id;
  }

  predicate NoDigits(s: string)
  {
    forall i :: 0 <= i < |s| ==> !IsDigit(s[i])
  }

  /**
   * The generated number is laid out as code, two digits, id: when the
   * code holds no digit, the id can be read back from the end of it.
   */
  lemma GeneratedNumberLayout(f: BoardFlight)
    requires NoDigits(AirlineCode(f.airline))
    ensures var n := GenerateFlightNumber(f);
            var k := |AirlineCode(f.airline)|;
            && k + 3 <= |n|
            && (forall i :: 0 <= i < k ==> !IsDigit(n[i]))
            && IsDigit(n[k])
            && ToNumber(n[k + 2..]) == f.id
  {
    var code := AirlineCode(f.airline);
    var n := GenerateFlightNumber(f);
    assert n[|code|] == n[|code|..][0];
    forall i | 0 <= i < |code| ensures !IsDigit(n[i]) {
      assert n[i] == n[..|code|][i];
    }
  }

  /**
   * Appending the id makes the number unique among flights whose airline
   * codes hold no digit: equal generated numbers mean equal ids.
   */
  lemma GeneratedNumbersUnique(f: BoardFlight, g: BoardFlight)
    requires NoDigits(AirlineCode(f.airline)) && NoDigits(AirlineCode(g.airline))
    requires GenerateFlightNumber(f) == GenerateFlightNumber(g)
    ensures f.id == g.id
  {
    GeneratedNumberLayout(f);
    GeneratedNumberLayout(g);
  }

  /**
   * Without that condition the id does not make the number unique: an
   * airline whose second word is a digit yields a code ending in a digit.
   */
  lemma GeneratedNumbersCollide()
    ensures var f := BoardFlight(4, "Air 1", "23", "", "", "", "");
            var g := BoardFlight(34, "A", "12", "", "", "", "");
            f.id != g.id && GenerateFlightNumber(f) == GenerateFlightNumber(g) == "A1234"
  {
    CollidingParts();
    assert "A1" + "23" + "4" == "A1234";
    assert "A" + "12" + "34" == "A1234";
  }

  lemma CollidingParts()
    ensures AirlineCode("Air 1") == "A1" && AirlineCode("A") == "A"
    ensures NumberPart("23") == "23" && NumberPart("12") == "12"
    ensures NatToString(4) == "4" && NatToString(34) == "34"
  {
    AirlineCodeTwoWords("Air", "1");
    assert "Air" + " " + "1" == "Air 1";
    SplitNoSeparator("A", ' ');
    assert DigitPairAt("23", 0) && DigitPairAt("12", 0);
  }

  // ---------------------------------------------------------------------
  // The 12-hour clock

  /** The hour on a 12-hour dial: 0 and 12 show as 12. */
  function Hour12(h: Hour): (r: nat)
    ensures 1 <= r <= 12
    ensures r % 12 == h % 12
  {
    if h % 12 == 0 then 12 else h % 12
  }

  function Meridiem(h: Hour): string
  {
    if h >= 12 then "PM" else "AM"
  }

  /** The 24-hour hour a 12-hour reading stands for: the inverse of the dial. */
  function To24(hour12: nat, pm: bool): nat
  {
    if pm then (if hour12 == 12 then 12 else hour12 + 12)
    else (if hour12 == 12 then 0 else hour12)
  }

  lemma Hour12RoundTrip(h: Hour)
    ensures To24(Hour12(h), Meridiem(h) == "PM") == h
  {
  }

  /** The time part of `formatDateTime`: "h:mm AM" or "h:mm PM". */
  function ClockText(t: Clock): (r: string)
    ensures 7 <= |r| <= 8
  {
    NatToStringShort(Hour12(t.hours));
    NatToString(Hour12(t.hours)) + ":" + Pad2(t.minutes) + " " + Meridiem(t.hours)
  }

  lemma {:induction false} NatToStringShort(n: nat)
    requires n < 100
    ensures |NatToString(n)| == if n < 10 then 1 else 2
  {
    if n >= 10 {
      assert n / 10 < 10;
    }
  }

  /**
   * Text that reads back as the clock: the hour digits before the colon and
   * the AM or PM suffix give the 24-hour hour, and the two digits after the
   * colon give the minutes.
   */
  predicate ReadsAsClock(r: string, t: Clock)
  {
    var n := |r|;
    && n >= 6
    && r[n - 6] == ':' && r[n - 3] == ' '
    && IsDigits(r[..n - 6]) && 1 <= ToNumber(r[..n - 6]) <= 12
    && (r[n - 2..] == "AM" || r[n - 2..] == "PM")
    && To24(ToNumber(r[..n - 6]), r[n - 2..] == "PM") == t.hours
    && IsDigits(r[n - 5..n - 3]) && ToNumber(r[n - 5..n - 3]) == t.minutes
  }

  lemma ClockTextRoundTrip(t: Clock)
    ensures ReadsAsClock(ClockText(t), t)
  {
    var hour, mm, ap := NatToString(Hour12(t.hours)), Pad2(t.minutes), Meridiem(t.hours);
    var r := ClockText(t);
    NatToStringShort(Hour12(t.hours));
    assert r == hour + ":" + mm + " " + ap;
    var n := |r|;
    assert |ap| == 2;
    assert r[..n - 6] == hour;
    assert r[n - 5..n - 3] == mm;
    assert r[n - 2..] == ap;
    ToNumberNatToString(Hour12(t.hours));
  }

  // ---------------------------------------------------------------------
  // Searching the board

  /** `formatDateTime`: the browser's date part and the 12-hour time. */
  datatype DateTime = DateTime(date: string, time: string)

  function FormatDateTime(dateString: string, localDate: string -> string, localClock: string -> Clock): (dt: DateTime)
    ensures dt.date == localDate(dateString)
    ensures dt.time == ClockText(localClock(dateString))
    ensures 7 <= |dt.time| <= 8 && ReadsAsClock(dt.time, localClock(dateString))
  {
    ClockTextRoundTrip(localClock(dateString));
    DateTime(localDate(dateString), ClockText(localClock(dateString)))
  }

  /** The `to` of a departure, the `from` of an arrival. */
  function Place(f: BoardFlight, kind: FlightType): string
  {
    if kind == Departures then f.destination else f.origin
  }

  /**
   * A board row matches a lower-cased term when the airline, the generated
   * number, the destination (departures) or origin (arrivals), the status,
   * or the formatted date or time contains it.
   */
  predicate BoardMatches(f: BoardFlight, kind: FlightType, term: string,
                         localDate: string -> string, localClock: string -> Clock)
  {
    var dt := FormatDateTime(f.date, localDate, localClock);
    || Contains(Lower(f.airline), term)
    || Contains(Lower(GenerateFlightNumber(f)), term)
    || Contains(Lower(Place(f, kind)), term)
    || Contains(Lower(f.status), term)
    || Contains(Lower(dt.date), term)
    || Contains(Lower(dt.time), term)
  }

  function BoardKeep(kind: FlightType, term: string, localDate: string -> string, localClock: string -> Clock)
    : BoardFlight -> bool
  {
    (f: BoardFlight) => BoardMatches(f, kind, term, localDate, localClock)
  }

  /**
   * `getFilteredFlights`: nothing while there is no list; otherwise the
   * rows matching the lower-cased term, in their order.
   */
  function GetFilteredFlights(flightList: Option<seq<BoardFlight>>, kind: FlightType, searchTerm: string,
                              localDate: string -> string, localClock: string -> Clock)
    : (r: seq<BoardFlight>)
    ensures flightList.None? ==> r == []
    ensures flightList.Some? ==> IsSubsequence(r, flightList.value)
    ensures flightList.Some? ==>
              forall f :: f in r <==> (f in flightList.value
                                       && BoardMatches(f, kind, Lower(searchTerm), localDate, localClock))
  {
    if flightList.None? then []
    else
      var keep := BoardKeep(kind, Lower(searchTerm), localDate, localClock);
      FilterIsSubsequence(flightList.value, keep);
      forall f ensures f in Filter(flightList.value, keep) <==> f in flightList.value && keep(f) {
        FilterMembership(flightList.value, keep, f);
      }
      Filter(flightList.value, keep)
  }

  /** An empty search keeps the whole list: every text contains "". */
  lemma EmptySearchShowsAll(flights: seq<BoardFlight>, kind: FlightType,
                            localDate: string -> string, localClock: string -> Clock)
    ensures GetFilteredFlights(Some(flights), kind, "", localDate, localClock) == flights
  {
    var keep := BoardKeep(kind, Lower(""), localDate, localClock);
    forall i | 0 <= i < |flights| ensures keep(flights[i]) {
      assert StartsWith(Lower(flights[i].airline), "");
    }
    FilterKeepsAll(flights, keep);
  }

  // ---------------------------------------------------------------------
  // Fetching the board

  function SampleFlights(kind: FlightType): (flights: seq<BoardFlight>)
    ensures |flights| == 3
  {
    if kind == Departures then
      [ BoardFlight(1, "WestJet", "WS123", "2025-12-12T14:30:00Z", "Toronto", "", "On Time"),
        BoardFlight(2, "Air Canada", "AC456", "2025-12-12T16:15:00Z", "Vancouver", "", "Delayed"),
        BoardFlight(3, "Porter Airlines", "PD789", "2025-12-12T18:45:00Z", "Montreal", "", "Cancelled") ]
    else
      [ BoardFlight(4, "WestJet", "WS321", "2025-12-12T12:30:00Z", "", "Toronto", "On Time"),
        BoardFlight(5, "Air Canada", "AC654", "2025-12-12T15:15:00Z", "", "Vancouver", "Delayed"),
        BoardFlight(6, "Porter Airlines", "PD987", "2025-12-12T17:45:00Z", "", "Montreal", "On Time") ]
  }

  /** How the flights request ended: a list, an error, or the 8-second timeout. */
  datatype FetchOutcome = Received(data: seq<BoardFlight>) | Failed | TimedOut

  /** What the board shows after a fetch, and whether the error flag is raised. */
  datatype Board = Board(flights: seq<BoardFlight>, error: bool)

  /**
   * `fetchFlights`: a non-empty list is shown as received; an empty list,
   * an error or the timeout shows the sample list for the current type,
   * and only the error and the timeout raise the error flag.
   */
  function AfterFetch(kind: FlightType, outcome: FetchOutcome): (b: Board)
    ensures |b.flights| > 0
    ensures b.error <==> !outcome.Received?
    ensures b.flights != SampleFlights(kind) ==> outcome.Received? && b.flights == outcome.data
    ensures outcome.Received? && outcome.data != [] ==> b.flights == outcome.data
  {
    match outcome
    case Received(data) => Board(if |data| > 0 then data else SampleFlights(kind), false)
    case Failed => Board(SampleFlights(kind), true)
    case TimedOut => Board(SampleFlights(kind), true)
  }
}
