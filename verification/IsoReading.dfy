/** Reading an ISO text back: `datetime.fromisoformat` on the texts `isoformat` writes in UTC. */
module IsoReading {
  import opened Prelude
  import opened IsoTimes

  // ----- numbers -----

  function DigitValue(c: char): nat { if '0' <= c <= '9' then (c - '0') as nat else 0 }

  function Number(s: string): nat { if s == [] then 0 else 10 * Number(s[..|s| - 1]) + DigitValue(s[|s| - 1]) }

  lemma {:induction false} NumberOfDigits(n: nat, width: nat)
    requires n < Power(width)
    ensures Number(Digits(n, width)) == n
  {
    if width > 0 {
      NumberOfDigits(n / 10, width - 1);
      assert Digits(n, width)[..|Digits(n, width)| - 1] == Digits(n / 10, width - 1);
    }
  }

  // ----- fields -----

  /** How a number stands in a text: what is written before it, and its width. */
  datatype Slot = Slot(lead: string, width: nat)

  datatype Parsed = Parsed(values: seq<nat>, rest: string)

  function ReadSlots(text: string, slots: seq<Slot>): Option<Parsed>
    decreases |slots|
  {
    if slots == [] then Some(Parsed([], text))
    else
      var lead, width := slots[0].lead, slots[0].width;
      if !(lead <= text) || |text| < |lead| + width then None
      else match ReadSlots(text[|lead| + width..], slots[1..])
        case None => None
        case Some(p) => Some(Parsed([Number(text[|lead|..|lead| + width])] + p.values, p.rest))
  }

  function SlotOf(f: Field): Slot { Slot(f.lead, f.width) }

  function SlotsOf(fields: seq<Field>): seq<Slot> {
    if fields == [] then [] else [SlotOf(fields[0])] + SlotsOf(fields[1..])
  }

  function ValuesOf(fields: seq<Field>): seq<nat> { if fields == [] then [] else [fields[0].value] + ValuesOf(fields[1..]) }

  /** Padded numbers are read back as they were written, whatever follows them. */
  lemma {:induction false} FieldsReadBack(fields: seq<Field>, rest: string)
    requires forall i :: 0 <= i < |fields| ==> fields[i].value < Power(fields[i].width)
    ensures ReadSlots(Spelled(fields) + rest, SlotsOf(fields)) == Some(Parsed(ValuesOf(fields), rest))
  {
    hide Digits, Power, Number;
    if fields == [] {
      assert Spelled(fields) + rest == rest;
    } else {
      var f := fields[0];
      var digits, tail := Digits(f.value, f.width), Spelled(fields[1..]) + rest;
      var text := Spelled(fields) + rest;
      assert text == f.lead + digits + tail;
      DigitsLength(f.value, f.width);
      NumberOfDigits(f.value, f.width);
      assert text[|f.lead|..|f.lead| + f.width] == digits && text[|f.lead| + f.width..] == tail;
      FieldsReadBack(fields[1..], rest);
    }
  }

  // ----- times -----

  const CLOCK := [Slot("", 4), Slot("-", 2), Slot("-", 2), Slot("T", 2), Slot(":", 2), Slot(":", 2)]

  /** The microseconds after the seconds, before the offset of UTC. */
  function ReadTail(rest: string): Option<nat> {
    if rest == "+00:00" then Some(0)
    else match ReadSlots(rest, [Slot(".", 6)])
      case Some(p) => if p.rest == "+00:00" then Some(p.values[0]) else None
      case None => None
  }

  function Read(text: string): Option<int> {
    match ReadSlots(text, CLOCK)
    case None => None
    case Some(p) =>
      if |p.values| != 6 || p.values[2] == 0 then None
      else
        var date := Date(p.values[0], p.values[1], p.values[2]);
        var second := p.values[3] * 3600 + p.values[4] * 60 + p.values[5];
        match ReadTail(p.rest)
        case None => None
        case Some(micros) => Some((86400 * DayNumber(date) + second - 62_135_596_800) * MICROS + micros)
  }

  lemma TailReadsBack(micros: nat)
    requires micros < MICROS
    ensures ReadTail(Tail(micros)) == Some(micros)
  {
    if micros > 0 {
      var fields := [Field(".", micros, 6)];
      SixDigits();
      hide Digits, Power;
      FieldsReadBack(fields, "+00:00");
      assert fields[1..] == [];
      assert Spelled(fields) == "." + Digits(micros, 6);
      assert Tail(micros)[0] == '.';
      assert ReadSlots(Tail(micros), [Slot(".", 6)]) == Some(Parsed([micros], "+00:00")) by {
        assert SlotsOf(fields) == [Slot(".", 6)] && ValuesOf(fields) == [micros];
      }
    }
  }

  lemma ClockReadsBack(d: Date, second: nat, rest: string)
    requires ValidDate(d) && d.year <= 9999 && second < 86400
    ensures ReadSlots(Spelled(ClockFields(d, second)) + rest, CLOCK) ==
            Some(Parsed([d.year, d.month, d.day, second / 3600, second / 60 % 60, second % 60], rest))
  {
    var fields := ClockFields(d, second);
    ClockSameShape(d, second, d, second);
    FieldsReadBack(fields, rest);
    hide Spelled, ReadSlots, SlotsOf, ValuesOf;
    SixFields(fields);
    assert SlotsOf(fields) == CLOCK;
  }

  lemma SixFields(fields: seq<Field>)
    requires |fields| == 6
    ensures SlotsOf(fields) == [SlotOf(fields[0]), SlotOf(fields[1]), SlotOf(fields[2]), SlotOf(fields[3]), SlotOf(fields[4]), SlotOf(fields[5])]
    ensures ValuesOf(fields) == [fields[0].value, fields[1].value, fields[2].value, fields[3].value, fields[4].value, fields[5].value]
  {
    assert fields[1..][1..] == fields[2..] && fields[2..][1..] == fields[3..] && fields[3..][1..] == fields[4..];
    assert fields[4..][1..] == fields[5..] && fields[5..][1..] == [];
    assert SlotsOf(fields[5..]) == [SlotOf(fields[5])] && ValuesOf(fields[5..]) == [fields[5].value];
    assert SlotsOf(fields[4..]) == [SlotOf(fields[4])] + SlotsOf(fields[5..]);
    assert SlotsOf(fields[3..]) == [SlotOf(fields[3])] + SlotsOf(fields[4..]);
    assert SlotsOf(fields[2..]) == [SlotOf(fields[2])] + SlotsOf(fields[3..]);
    assert SlotsOf(fields[1..]) == [SlotOf(fields[1])] + SlotsOf(fields[2..]);
    assert ValuesOf(fields[4..]) == [fields[4].value] + ValuesOf(fields[5..]);
    assert ValuesOf(fields[3..]) == [fields[3].value] + ValuesOf(fields[4..]);
    assert ValuesOf(fields[2..]) == [fields[2].value] + ValuesOf(fields[3..]);
    assert ValuesOf(fields[1..]) == [fields[1].value] + ValuesOf(fields[2..]);
  }

  /** What is written is read back: every time within the years 1 to 9999 has an ISO text that names it. */
  lemma IsoReadsBack(t: Time)
    ensures Read(Iso(t)) == Some(t)
  {
    hide Spelled, ReadSlots, Digits, ReadTail, Tail, DateOf, DayNumber;
    var s: Second := t / MICROS;
    var since := SinceYearOne(s);
    var d, second := DateOf(since / 86400), since % 86400;
    IsoTail(t);
    ClockReadsBack(d, second, Tail(t % MICROS));
    TailReadsBack(t % MICROS);
    assert second / 3600 * 3600 + second / 60 % 60 * 60 + second % 60 == second by { ClockAddsUp(second); }
  }

  lemma ClockAddsUp(second: nat)
    ensures second / 3600 * 3600 + second / 60 % 60 * 60 + second % 60 == second
  {
    var minutes := second / 60;
    assert second == 60 * minutes + second % 60;
    assert minutes == 60 * (minutes / 60) + minutes % 60;
    assert second / 3600 == minutes / 60;
  }
}
