/** Stadium layouts: row labels, and the enumeration of the assigned seats. */
module Layout {

  datatype SeatSpec = SeatSpec(section: string, row: string, number: string)

  datatype SectionSpec = SectionSpec(code: string, rows: int, seatsPerRow: int)

  // ---------- row labels ----------

  function Letter(digit: nat): char
    requires digit < 26
  {
    (65 + digit) as char
  }

  /** Bijective base 26: the digits are 1 to 26, written A to Z. */
  function Letters(m: nat): (s: string)
    ensures m > 0 ==> s != ""
  {
    if m == 0 then "" else Letters((m - 1) / 26) + [Letter((m - 1) % 26)]
  }

  /** The label of the row with the given index, counted from zero. */
  function Label(index: nat): string {
    Letters(index + 1)
  }

  predicate IsLabel(s: string) {
    forall i :: 0 <= i < |s| ==> 'A' <= s[i] <= 'Z'
  }

  /** Reads a label back. */
  function Value(s: string): nat
    requires IsLabel(s)
  {
    if s == "" then 0 else 26 * Value(s[..|s| - 1]) + (s[|s| - 1] as int - 65) + 1
  }

  lemma {:induction false} ValueOfLetters(m: nat)
    ensures IsLabel(Letters(m)) && Value(Letters(m)) == m
  {
    if m > 0 {
      var rest := Letters((m - 1) / 26);
      ValueOfLetters((m - 1) / 26);
      assert Letters(m)[..|Letters(m)| - 1] == rest;
    }
  }

  lemma {:induction false} LettersOfValue(s: string)
    requires IsLabel(s)
    ensures Letters(Value(s)) == s
  {
    if s != "" {
      var rest, digit := s[..|s| - 1], s[|s| - 1] as int - 65;
      LettersOfValue(rest);
      assert (Value(s) - 1) / 26 == Value(rest) && (Value(s) - 1) % 26 == digit;
      assert s == rest + [s[|s| - 1]];
    }
  }

  /** Labels and rows are in bijection: reading a row's label gives back the row, */
  lemma LabelsAreDistinct(a: nat, b: nat)
    requires Label(a) == Label(b)
    ensures a == b
  {
    ValueOfLetters(a + 1);
    ValueOfLetters(b + 1);
  }

  /** and every non-empty string of capital letters is the label of a row. */
  lemma EveryLabelIsARow(s: string) returns (index: nat)
    requires IsLabel(s) && s != ""
    ensures Label(index) == s
  {
    LettersOfValue(s);
    index := Value(s) - 1;
  }

  /** The label as the loop builds it, least significant letter first. */
  method RowLabel(index: nat) returns (text: string)
    ensures text == Label(index)
  {
    text := "";
    var remaining: nat := index + 1;
    while remaining != 0
      invariant Letters(index + 1) == Letters(remaining) + text
      decreases remaining
    {
      var remainder := (remaining - 1) % 26;
      remaining := (remaining - 1) / 26;
      text := [Letter(remainder)] + text;
    }
  }

  // ---------- seat numbers ----------

  function Digit(d: nat): char
    requires d < 10
  {
    (48 + d) as char
  }

  /** `str(n)`. */
  function Decimal(n: nat): (s: string)
    ensures s != ""
  {
    if n < 10 then [Digit(n)] else Decimal(n / 10) + [Digit(n % 10)]
  }

  function Number(s: string): int {
    if s == "" then 0 else 10 * Number(s[..|s| - 1]) + (s[|s| - 1] as int - 48)
  }

  lemma {:induction false} NumberOfDecimal(n: nat)
    ensures Number(Decimal(n)) == n
  {
    if n >= 10 {
      NumberOfDecimal(n / 10);
      assert Decimal(n)[..|Decimal(n)| - 1] == Decimal(n / 10);
    } else {
      assert Decimal(n)[..0] == "";
    }
  }

  // ---------- the seats ----------

  function AtLeastZero(n: int): nat {
    if n < 0 then 0 else n
  }

  /** The first `n` seats of a row, */
  function RowSeats(code: string, row: nat, n: nat): seq<SeatSpec> {
    if n == 0 then [] else RowSeats(code, row, n - 1) + [SeatSpec(code, Label(row), Decimal(n))]
  }

  /** of the first `r` rows of a section, */
  function SectionSeats(section: SectionSpec, r: nat): seq<SeatSpec> {
    if r == 0 then []
    else SectionSeats(section, r - 1) + RowSeats(section.code, r - 1, AtLeastZero(section.seatsPerRow))
  }

  /** of all sections. */
  function AllSeats(sections: seq<SectionSpec>): seq<SeatSpec> {
    if sections == [] then []
    else
      var last := sections[|sections| - 1];
      AllSeats(sections[..|sections| - 1]) + SectionSeats(last, AtLeastZero(last.rows))
  }

  /** The seats, in the order the generator yields them. */
  method Seats(sections: seq<SectionSpec>) returns (seats: seq<SeatSpec>)
    ensures seats == AllSeats(sections)
  {
    seats := [];
    for i := 0 to |sections|
      invariant seats == AllSeats(sections[..i])
    {
      var section := sections[i];
      ghost var earlier := seats;
      var r := 0;
      while r < section.rows
        invariant 0 <= r <= AtLeastZero(section.rows)
        invariant seats == earlier + SectionSeats(section, r)
      {
        var row := RowLabel(r);
        var n := 1;
        ghost var before, width, done: nat := seats, AtLeastZero(section.seatsPerRow), 0;
        while n < section.seatsPerRow + 1
          invariant n == done + 1 && done <= width
          invariant seats == before + RowSeats(section.code, r, done)
        {
          OneSeatMore(before, section.code, r, done, n);
          seats := seats + [SeatSpec(section.code, row, Decimal(n))];
          n, done := n + 1, n;
        }
        OneRowMore(earlier, section, r, r + 1);
        r := r + 1;
      }
      OneSectionMore(sections, i, i + 1);
    }
    assert sections[..|sections|] == sections;
  }

  lemma OneSeatMore(before: seq<SeatSpec>, code: string, row: nat, done: nat, n: nat)
    requires n == done + 1
    ensures before + RowSeats(code, row, done) + [SeatSpec(code, Label(row), Decimal(n))] == before + RowSeats(code, row, n)
  {
  }

  lemma OneRowMore(before: seq<SeatSpec>, section: SectionSpec, r: nat, next: nat)
    requires next == r + 1
    ensures before + SectionSeats(section, r) + RowSeats(section.code, r, AtLeastZero(section.seatsPerRow))
         == before + SectionSeats(section, next)
  {
    var row := RowSeats(section.code, r, AtLeastZero(section.seatsPerRow));
    SectionStep(section, r, next, row);
    Regroup(before, SectionSeats(section, r), row);
  }

  lemma SectionStep(section: SectionSpec, r: nat, next: nat, row: seq<SeatSpec>)
    requires next == r + 1 && row == RowSeats(section.code, r, AtLeastZero(section.seatsPerRow))
    ensures SectionSeats(section, next) == SectionSeats(section, r) + row
  {
    assert next - 1 == r;
  }

  lemma Regroup(a: seq<SeatSpec>, b: seq<SeatSpec>, c: seq<SeatSpec>)
    ensures a + b + c == a + (b + c)
  {
  }

  lemma OneSectionMore(sections: seq<SectionSpec>, i: nat, next: nat)
    requires next == i + 1 <= |sections|
    ensures AllSeats(sections[..next]) == AllSeats(sections[..i]) + SectionSeats(sections[i], AtLeastZero(sections[i].rows))
  {
    assert sections[..next][..i] == sections[..i];
  }

  /** A seat of the layout, located by section, row and number. */
  predicate Located(sections: seq<SectionSpec>, seat: SeatSpec, i: nat, r: nat, n: nat) {
    && i < |sections| && r < sections[i].rows && 1 <= n <= sections[i].seatsPerRow
    && seat == SeatSpec(sections[i].code, Label(r), Decimal(n))
  }

  lemma {:induction false} InRow(code: string, row: nat, n: nat, k: nat)
    ensures |RowSeats(code, row, n)| == n
    ensures k < n ==> RowSeats(code, row, n)[k] == SeatSpec(code, Label(row), Decimal(k + 1))
  {
    if n > 0 {
      InRow(code, row, n - 1, k);
    }
  }

  /** Where the `k`-th seat of a section is. */
  lemma {:induction false} InSection(section: SectionSpec, rows: nat, k: nat) returns (r: nat, n: nat)
    requires k < |SectionSeats(section, rows)|
    ensures r < rows && 1 <= n <= section.seatsPerRow
    ensures SectionSeats(section, rows)[k] == SeatSpec(section.code, Label(r), Decimal(n))
    ensures k == r * section.seatsPerRow + n - 1
  {
    var width := AtLeastZero(section.seatsPerRow);
    SectionSize(section, rows - 1);
    InRow(section.code, rows - 1, width, 0);
    if k < |SectionSeats(section, rows - 1)| {
      r, n := InSection(section, rows - 1, k);
    } else {
      r, n := rows - 1, k - |SectionSeats(section, rows - 1)| + 1;
      InRow(section.code, rows - 1, width, n - 1);
    }
  }

  lemma {:induction false} SectionSize(section: SectionSpec, rows: nat)
    ensures |SectionSeats(section, rows)| == rows * AtLeastZero(section.seatsPerRow)
  {
    if rows > 0 {
      var width := AtLeastZero(section.seatsPerRow);
      SectionSize(section, rows - 1);
      InRow(section.code, rows - 1, width, 0);
      assert rows * width == (rows - 1) * width + width;
    }
  }

  /** Where a seat of a section comes in its enumeration. */
  lemma {:induction false} SeatOfSection(section: SectionSpec, rows: nat, r: nat, n: nat)
    requires r < rows && 1 <= n <= section.seatsPerRow
    ensures r * section.seatsPerRow + n - 1 < |SectionSeats(section, rows)|
    ensures SectionSeats(section, rows)[r * section.seatsPerRow + n - 1] == SeatSpec(section.code, Label(r), Decimal(n))
  {
    var width := section.seatsPerRow;
    SectionSize(section, rows - 1);
    if r < rows - 1 {
      SeatOfSection(section, rows - 1, r, n);
    } else {
      InRow(section.code, r, width, n - 1);
    }
  }

  /** Which section the `k`-th seat of the layout is in, and the how-manieth of that section it is. */
  lemma {:induction false} InLayout(sections: seq<SectionSpec>, k: nat) returns (i: nat, offset: nat)
    requires k < |AllSeats(sections)|
    ensures i < |sections| && k == |AllSeats(sections[..i])| + offset
    ensures offset < |SectionSeats(sections[i], AtLeastZero(sections[i].rows))|
    ensures AllSeats(sections)[k] == SectionSeats(sections[i], AtLeastZero(sections[i].rows))[offset]
  {
    var n := |sections| - 1;
    if k < |AllSeats(sections[..n])| {
      i, offset := InLayout(sections[..n], k);
      assert sections[..n][..i] == sections[..i];
    } else {
      i, offset := n, k - |AllSeats(sections[..n])|;
    }
  }

  lemma {:induction false} OfLayout(sections: seq<SectionSpec>, i: nat, offset: nat)
    requires i < |sections| && offset < |SectionSeats(sections[i], AtLeastZero(sections[i].rows))|
    ensures |AllSeats(sections[..i])| + offset < |AllSeats(sections)|
    ensures AllSeats(sections)[|AllSeats(sections[..i])| + offset]
         == SectionSeats(sections[i], AtLeastZero(sections[i].rows))[offset]
  {
    var n := |sections| - 1;
    if i < n {
      OfLayout(sections[..n], i, offset);
      assert sections[..n][..i] == sections[..i];
    }
  }

  /** No seat is enumerated twice: with distinct section codes, all locations are distinct. */
  lemma SeatsAreDistinct(sections: seq<SectionSpec>, k: nat, l: nat)
    requires forall i, j :: 0 <= i < j < |sections| ==> sections[i].code != sections[j].code
    requires k < |AllSeats(sections)| && l < |AllSeats(sections)|
    requires AllSeats(sections)[k] == AllSeats(sections)[l]
    ensures k == l
  {
    var i, a := InLayout(sections, k);
    var j, b := InLayout(sections, l);
    var r, m := InSection(sections[i], AtLeastZero(sections[i].rows), a);
    var q, n := InSection(sections[j], AtLeastZero(sections[j].rows), b);
    assert i == j;
    LabelsAreDistinct(r, q);
    NumberOfDecimal(m);
    NumberOfDecimal(n);
  }

  /** Exactly the seats of the layout are enumerated. */
  lemma SeatsAreComplete(sections: seq<SectionSpec>, seat: SeatSpec)
    ensures seat in AllSeats(sections) <==> exists i: nat, r: nat, n: nat :: Located(sections, seat, i, r, n)
  {
    if seat in AllSeats(sections) {
      var k :| 0 <= k < |AllSeats(sections)| && AllSeats(sections)[k] == seat;
      var i, offset := InLayout(sections, k);
      var r, n := InSection(sections[i], AtLeastZero(sections[i].rows), offset);
      assert Located(sections, seat, i, r, n);
    }
    forall i: nat, r: nat, n: nat | Located(sections, seat, i, r, n) ensures seat in AllSeats(sections) {
      SeatOfSection(sections[i], AtLeastZero(sections[i].rows), r, n);
      OfLayout(sections, i, r * sections[i].seatsPerRow + n - 1);
    }
  }

  // ---------- the capacity ----------

  function AssignedCapacity(sections: seq<SectionSpec>): int {
    if sections == [] then 0
    else
      var last := sections[|sections| - 1];
      AssignedCapacity(sections[..|sections| - 1]) + last.rows * last.seatsPerRow
  }

  /** A section's share of the capacity is the number of its seats, unless a count is negative and the
      product does not happen to vanish. */
  lemma SectionCapacity(section: SectionSpec)
    ensures |SectionSeats(section, AtLeastZero(section.rows))| == section.rows * section.seatsPerRow
       <==> (section.rows >= 0 && section.seatsPerRow >= 0) || section.rows == 0 || section.seatsPerRow == 0
  {
    SectionSize(section, AtLeastZero(section.rows));
    if section.rows < 0 && section.seatsPerRow < 0 {
      assert section.rows * section.seatsPerRow > 0;
    } else if section.rows < 0 && section.seatsPerRow > 0 {
      assert section.rows * section.seatsPerRow < 0;
    }
  }

  /** As many seats as the assigned capacity says. */
  lemma {:induction false} CapacityIsCount(sections: seq<SectionSpec>)
    requires forall i :: 0 <= i < |sections| ==> sections[i].rows >= 0 && sections[i].seatsPerRow >= 0
    ensures |AllSeats(sections)| == AssignedCapacity(sections)
  {
    if sections != [] {
      CapacityIsCount(sections[..|sections| - 1]);
      SectionCapacity(sections[|sections| - 1]);
    }
  }
}
