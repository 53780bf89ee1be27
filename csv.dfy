/** The expense export's CSV text: a header line, then one line per expense
    with the date, the quoted name, the quoted category name and the amount.
    Quoted fields double their quotes as section 2, rule 7 of RFC 4180 asks.
    A reader for that layout shows the text determines every field again. */
module Csv {
  import opened Wrappers
  import opened Dates
  import opened Models

  /** The line terminator `AppendLine` writes, fixed to one separator. */
  const NewLine := "\n"

  const Header := "Date,Name,Category,Amount"

  // ---------------------------------------------------------------------------
  // Quoted fields

  /** `v.Replace("\"", "\"\"")`. */
  function Double(v: string): (r: string)
    ensures |r| >= |v|
    ensures (forall i :: 0 <= i < |v| ==> v[i] != '"') ==> r == v
  {
    if v == [] then []
    else (if v[0] == '"' then "\"\"" else [v[0]]) + Double(v[1..])
  }

  /** `Esc`: the value in quotes, with its own quotes doubled. */
  function Esc(v: string): (r: string)
    ensures |r| >= |v| + 2 && r[0] == '"' && r[|r| - 1] == '"'
    ensures (forall i :: 0 <= i < |v| ==> v[i] != '"') ==> r == "\"" + v + "\""
  {
    "\"" + Double(v) + "\""
  }

  /** Un-doubling a quoted field's interior: each `""` stands for one quote;
      a lone quote is malformed. */
  function Undouble(w: string): Option<string> {
    if w == [] then Some([])
    else if w[0] == '"' then
      if |w| >= 2 && w[1] == '"' then
        match Undouble(w[2..])
        case None => None
        case Some(v) => Some("\"" + v)
      else None
    else
      match Undouble(w[1..])
      case None => None
      case Some(v) => Some([w[0]] + v)
  }

  lemma {:induction false} UndoubleDouble(v: string)
    ensures Undouble(Double(v)) == Some(v)
  {
    if v != [] {
      UndoubleDouble(v[1..]);
      var w := Double(v);
      if v[0] == '"' {
        assert w[2..] == Double(v[1..]);
      } else {
        assert w[1..] == Double(v[1..]);
      }
      assert v == [v[0]] + v[1..];
    }
  }

  /** Un-doubling the interior of `Esc(v)` gives back v. */
  lemma EscRoundTrip(v: string)
    ensures var w := Esc(v); Undouble(w[1..|w| - 1]) == Some(v)
  {
    var w := Esc(v);
    assert w[1..|w| - 1] == Double(v);
    UndoubleDouble(v);
  }

  /** Esc is one-to-one: different values are written differently. */
  lemma EscInjective(v: string, u: string)
    requires Esc(v) == Esc(u)
    ensures v == u
  {
    EscRoundTrip(v);
    EscRoundTrip(u);
  }

  // ---------------------------------------------------------------------------
  // Unquoted fields: dates and amounts in the invariant culture

  predicate IsDigit(c: char) {
    '0' <= c <= '9'
  }

  /** A field written without quotes must not hold a separator, a quote or a line break. */
  predicate Plain(s: string) {
    forall i :: 0 <= i < |s| ==> s[i] != ',' && s[i] != '"' && s[i] != '\n'
  }

  predicate AllDigits(s: string) {
    forall i :: 0 <= i < |s| ==> IsDigit(s[i])
  }

  /** Digits, '-' and '.' are plain, and so is a concatenation of plain texts. */
  lemma PlainParts(a: string, b: string)
    ensures AllDigits(a) ==> Plain(a)
    ensures Plain(a) && Plain(b) ==> Plain(a + b)
    ensures Plain("-") && Plain(".")
  {
    if Plain(a) && Plain(b) {
      assert forall i :: 0 <= i < |a + b| ==> (a + b)[i] == if i < |a| then a[i] else b[i - |a|];
    }
  }

  function DigitChar(k: int): (c: char)
    requires 0 <= k < 10
    ensures IsDigit(c)
  {
    ('0' as int + k) as char
  }

  /** n in decimal, without leading zeros. */
  function NatText(n: nat): (r: string)
    ensures 1 <= |r| && AllDigits(r)
    ensures n < 100 ==> |r| <= 2
  {
    if n < 10 then [DigitChar(n)] else NatText(n / 10) + [DigitChar(n % 10)]
  }

  /** The value of a string of decimal digits. */
  function DigitsValue(s: string): int {
    if s == [] then 0 else DigitsValue(s[..|s| - 1]) * 10 + (s[|s| - 1] as int - '0' as int)
  }

  /** NatText writes n so that it reads back as n. */
  lemma {:induction false} NatTextValue(n: nat)
    ensures DigitsValue(NatText(n)) == n
  {
    if n >= 10 {
      NatTextValue(n / 10);
      var r := NatText(n);
      assert r[..|r| - 1] == NatText(n / 10);
    }
  }

  /** Left-pad with zeros to at least `width` characters. */
  function PadZeros(s: string, width: nat): (r: string)
    ensures |r| == if |s| >= width then |s| else width
    ensures AllDigits(s) ==> AllDigits(r)
  {
    if |s| >= width then s else seq(width - |s|, _ => '0') + s
  }

  /** |x|: the digits the formatters write for x. */
  function Magnitude(x: int): nat {
    if x < 0 then -x else x
  }

  /** `{e.Date:yyyy-MM-dd}`. A .NET date has a year from 1 to 9999 and a
      positive month and day, so the sign this writes for a negative year never
      appears there. */
  function DateText(d: Date): (r: string)
    ensures Plain(r)
    ensures |r| >= 10
  {
    var y := PadZeros(NatText(Magnitude(d.year)), 4);
    var mm := PadZeros(NatText(Magnitude(d.month)), 2);
    var dd := PadZeros(NatText(Magnitude(d.day)), 2);
    var year := if d.year < 0 then "-" + y else y;
    PlainParts(y, []);
    PlainParts(mm, []);
    PlainParts(dd, []);
    PlainParts("-", y);
    PlainParts(year, "-");
    PlainParts(year + "-", mm);
    PlainParts(year + "-" + mm, "-");
    PlainParts(year + "-" + mm + "-", dd);
    year + "-" + mm + "-" + dd
  }

  /** `{e.Amount:0.00}` of an amount in cents: the sign, the whole units, a
      point and exactly two digits. */
  function AmountText(c: Cents): (r: string)
    ensures Plain(r)
  {
    var m := Magnitude(c);
    var cents := PadZeros(NatText(m % 100), 2);
    var sign := if c < 0 then "-" else "";
    var units := NatText(m / 100);
    PlainParts(units, []);
    PlainParts(cents, []);
    PlainParts(sign, units);
    PlainParts(sign + units, ".");
    PlainParts(sign + units + ".", cents);
    sign + units + "." + cents
  }

  /** The value of an optional '-' followed by decimal digits. */
  function SignedValue(s: string): int {
    if |s| > 0 && s[0] == '-' then -DigitsValue(s[1..]) else DigitsValue(s)
  }

  /** Reads unsigned `0.00` text back: the whole units before the point and
      the two digits after it. */
  function UnsignedAmountValue(t: string): int {
    if |t| < 3 then 0 else DigitsValue(t[..|t| - 3]) * 100 + DigitsValue(t[|t| - 2..])
  }

  /** Reads `0.00` text back: an optional sign, then the unsigned amount. */
  function AmountValue(s: string): int {
    if |s| > 0 && s[0] == '-' then -UnsignedAmountValue(s[1..]) else UnsignedAmountValue(s)
  }

  /** Reads `yyyy-MM-dd` text back: the signed year before the last two
      separators, then the two month digits and the two day digits. */
  function DateValue(s: string): Date {
    if |s| < 6 then Date(0, 0, 0)
    else Date(SignedValue(s[..|s| - 6]), DigitsValue(s[|s| - 5..|s| - 3]), DigitsValue(s[|s| - 2..]))
  }

  /** Leading zeros do not change a digit string's value. */
  lemma {:induction false} LeadingZerosValue(k: nat, s: string)
    ensures DigitsValue(seq(k, _ => '0') + s) == DigitsValue(s)
    decreases |s|, k
  {
    var z := seq(k, _ => '0');
    if s == [] {
      assert z + s == z;
      if k > 0 {
        assert z[..k - 1] == seq(k - 1, _ => '0');
        LeadingZerosValue(k - 1, []);
        assert seq(k - 1, _ => '0') + [] == seq(k - 1, _ => '0');
      }
    } else {
      assert (z + s)[..|z + s| - 1] == z + s[..|s| - 1];
      LeadingZerosValue(k, s[..|s| - 1]);
    }
  }

  lemma PadZerosValue(s: string, width: nat)
    ensures DigitsValue(PadZeros(s, width)) == DigitsValue(s)
  {
    if |s| < width {
      LeadingZerosValue(width - |s|, s);
    }
  }

  /** The padded decimal text of n reads back as n. */
  lemma PaddedValue(n: nat, width: nat)
    ensures DigitsValue(PadZeros(NatText(n), width)) == n
    ensures AllDigits(PadZeros(NatText(n), width))
  {
    PadZerosValue(NatText(n), width);
    NatTextValue(n);
  }

  /** The two-digit padded text of n < 100 has exactly two digits. */
  lemma TwoDigits(n: nat)
    requires n < 100
    ensures |PadZeros(NatText(n), 2)| == 2
  {
  }

  /** Reading whole units, a point and two cent digits. */
  lemma ReadUnsignedAmount(units: string, cents: string)
    requires |cents| == 2
    ensures UnsignedAmountValue(units + "." + cents) == DigitsValue(units) * 100 + DigitsValue(cents)
  {
    var t := units + "." + cents;
    assert t[..|t| - 3] == units && t[|t| - 2..] == cents;
  }

  /** Reading an optional sign in front of an unsigned amount. */
  lemma ReadSign(sign: string, t: string)
    requires sign == "" || sign == "-"
    requires |t| >= 1 && t[0] != '-'
    ensures AmountValue(sign + t) == if sign == "-" then -UnsignedAmountValue(t) else UnsignedAmountValue(t)
  {
    if sign == "-" {
      assert (sign + t)[1..] == t;
    } else {
      assert sign + t == t;
    }
  }

  /** The amount text determines the amount: it reads back as exactly c. */
  lemma AmountTextRoundTrip(c: Cents)
    ensures AmountValue(AmountText(c)) == c
  {
    var m := Magnitude(c);
    var cents := PadZeros(NatText(m % 100), 2);
    var units := NatText(m / 100);
    var sign := if c < 0 then "-" else "";
    var t := units + "." + cents;
    assert AmountText(c) == sign + t;
    TwoDigits(m % 100);
    PaddedValue(m % 100, 2);
    NatTextValue(m / 100);
    ReadUnsignedAmount(units, cents);
    ReadSign(sign, t);
  }

  /** Reading a year, a separator, two month digits, a separator and two day digits. */
  lemma ReadDateParts(year: string, mm: string, dd: string)
    requires |mm| == 2 && |dd| == 2
    ensures DateValue(year + "-" + mm + "-" + dd) == Date(SignedValue(year), DigitsValue(mm), DigitsValue(dd))
  {
    var s := year + "-" + mm + "-" + dd;
    assert s[..|s| - 6] == year;
    assert s[|s| - 5..|s| - 3] == mm;
    assert s[|s| - 2..] == dd;
  }

  /** The year text, with its sign and at least four digits, reads back as the year. */
  lemma YearTextValue(y: int)
    ensures var p := PadZeros(NatText(Magnitude(y)), 4);
      SignedValue(if y < 0 then "-" + p else p) == y
  {
    var p := PadZeros(NatText(Magnitude(y)), 4);
    PaddedValue(Magnitude(y), 4);
    if y < 0 {
      assert ("-" + p)[1..] == p;
    } else {
      assert IsDigit(p[0]);
    }
  }

  /** The date text of a valid date determines it: it reads back as exactly d. */
  lemma DateTextRoundTrip(d: Date)
    requires Valid(d)
    ensures DateValue(DateText(d)) == d
  {
    var y := PadZeros(NatText(Magnitude(d.year)), 4);
    var mm := PadZeros(NatText(Magnitude(d.month)), 2);
    var dd := PadZeros(NatText(Magnitude(d.day)), 2);
    var year := if d.year < 0 then "-" + y else y;
    assert DateText(d) == year + "-" + mm + "-" + dd;
    TwoDigits(d.month);
    TwoDigits(d.day);
    PaddedValue(d.month, 2);
    PaddedValue(d.day, 2);
    YearTextValue(d.year);
    ReadDateParts(year, mm, dd);
  }

  lemma DateTextExample()
    ensures DateText(Date(2026, 3, 7)) == "2026-03-07"
  {
    assert NatText(20) == "20";
    assert NatText(202) == "202";
    assert NatText(2026) == "2026";
    assert PadZeros("3", 2) == "03" && PadZeros("7", 2) == "07";
  }

  /** The decimal texts the worked amounts below write. */
  lemma NatTextValues()
    ensures NatText(0) == "0" && NatText(2) == "2" && NatText(5) == "5"
    ensures NatText(50) == "50" && NatText(56) == "56" && NatText(1234) == "1234"
  {
    assert NatText(12) == "12";
    assert NatText(123) == "123";
  }

  lemma AmountTextExamples()
    ensures AmountText(123456) == "1234.56"
    ensures AmountText(5) == "0.05"
    ensures AmountText(-250) == "-2.50"
    ensures AmountText(0) == "0.00"
  {
    NatTextValues();
    assert PadZeros("56", 2) == "56" && PadZeros("50", 2) == "50";
    assert PadZeros("5", 2) == "05" && PadZeros("0", 2) == "00";
  }

  // ---------------------------------------------------------------------------
  // Lines and the document

  /** `e.Category?.Name ?? ""`: the name of the expense's category, or the
      empty string when no category has that identity. */
  function CategoryNameOf(cats: seq<Category>, id: int): (r: string)
    ensures (forall i :: 0 <= i < |cats| ==> cats[i].categoryId != id) ==> r == ""
    ensures forall i :: (0 <= i < |cats| && cats[i].categoryId == id
                         && forall j :: 0 <= j < i ==> cats[j].categoryId != id) ==> r == cats[i].name
  {
    if cats == [] then ""
    else if cats[0].categoryId == id then cats[0].name
    else
      var r := CategoryNameOf(cats[1..], id);
      assert forall i :: 1 <= i < |cats| ==> cats[1..][i - 1] == cats[i];
      r
  }

  /** The four fields of one line, as text. */
  datatype CsvRecord = CsvRecord(date: string, name: string, category: string, amount: string)

  /** The fields an expense's line holds: its date, its name, its category's
      name and its amount. */
  function RecordOf(e: Expense, cats: seq<Category>): (r: CsvRecord)
    ensures Writable(r)
  {
    CsvRecord(DateText(e.date), e.name, CategoryNameOf(cats, e.categoryId), AmountText(e.amount))
  }

  function RecordsOf(rows: seq<Expense>, cats: seq<Category>): (r: seq<CsvRecord>)
    ensures |r| == |rows|
    ensures forall i :: 0 <= i < |r| ==> Writable(r[i])
  {
    seq(|rows|, i requires 0 <= i < |rows| => RecordOf(rows[i], cats))
  }

  /** The unquoted fields hold nothing a reader could mistake for structure. */
  predicate Writable(r: CsvRecord) {
    Plain(r.date) && Plain(r.amount)
  }

  /** One `AppendLine`: the date and the amount as they are, the name and the
      category escaped. */
  function LineOf(r: CsvRecord): string {
    r.date + "," + Esc(r.name) + "," + Esc(r.category) + "," + r.amount + NewLine
  }

  /** The texts one after another. */
  function Concat(ls: seq<string>): string {
    if ls == [] then [] else ls[0] + Concat(ls[1..])
  }

  lemma {:induction false} ConcatSnoc(ls: seq<string>, l: string)
    ensures Concat(ls + [l]) == Concat(ls) + l
  {
    if ls != [] {
      assert (ls + [l])[1..] == ls[1..] + [l];
      ConcatSnoc(ls[1..], l);
    }
  }

  /** Appending the next text of a list to a prefix of its concatenation
      gives the next prefix. */
  lemma ConcatPrefixStep(head: string, ls: seq<string>, i: int)
    requires 0 <= i < |ls|
    ensures head + Concat(ls[..i]) + ls[i] == head + Concat(ls[..i + 1])
  {
    assert ls[..i + 1] == ls[..i] + [ls[i]];
    ConcatSnoc(ls[..i], ls[i]);
  }

  /** The line of each record, in order. */
  function Lines(recs: seq<CsvRecord>): (ls: seq<string>)
    ensures |ls| == |recs|
  {
    seq(|recs|, i requires 0 <= i < |recs| => LineOf(recs[i]))
  }

  /** The whole export: the header line, then each row's line. */
  function CsvDocument(rows: seq<Expense>, cats: seq<Category>): string {
    Header + NewLine + Concat(Lines(RecordsOf(rows, cats)))
  }

  // ---------------------------------------------------------------------------
  // Reading the document back

  /** The text before the first `delim`, and the text after it. */
  function ReadUntil(s: string, delim: char): (r: Option<(string, string)>)
    ensures r.Some? ==> |r.value.1| < |s|
  {
    if s == [] then None
    else if s[0] == delim then Some(([], s[1..]))
    else
      match ReadUntil(s[1..], delim)
      case None => None
      case Some(p) => Some(([s[0]] + p.0, p.1))
  }

  /** A quoted field's interior up to its closing quote, and the text after the quote. */
  function ReadQuoted(s: string): (r: Option<(string, string)>)
    ensures r.Some? ==> |r.value.1| < |s|
  {
    if s == [] then None
    else if s[0] == '"' then
      if |s| >= 2 && s[1] == '"' then
        match ReadQuoted(s[2..])
        case None => None
        case Some(p) => Some(("\"" + p.0, p.1))
      else Some(([], s[1..]))
    else
      match ReadQuoted(s[1..])
      case None => None
      case Some(p) => Some(([s[0]] + p.0, p.1))
  }

  /** A quoted field followed by `delim`: the field's interior and the text after `delim`. */
  function ReadQuotedThen(s: string, delim: char): (r: Option<(string, string)>)
    ensures r.Some? ==> |r.value.1| < |s|
  {
    if s == [] || s[0] != '"' then None
    else
      var p :- ReadQuoted(s[1..]);
      if p.1 == [] || p.1[0] != delim then None else Some((p.0, p.1[1..]))
  }

  /** One line: plain date, quoted name, quoted category, plain amount. */
  function ReadRecord(s: string): (r: Option<(CsvRecord, string)>)
    ensures r.Some? ==> |r.value.1| < |s|
  {
    var p1 :- ReadUntil(s, ',');
    var p2 :- ReadQuotedThen(p1.1, ',');
    var p3 :- ReadQuotedThen(p2.1, ',');
    var p4 :- ReadUntil(p3.1, '\n');
    Some((CsvRecord(p1.0, p2.0, p3.0, p4.0), p4.1))
  }

  function ReadRecords(s: string): Option<seq<CsvRecord>>
    decreases |s|
  {
    if s == [] then Some([])
    else
      var p :- ReadRecord(s);
      var more :- ReadRecords(p.1);
      Some([p.0] + more)
  }

  /** The header line, then the records. */
  function ReadCsv(s: string): Option<seq<CsvRecord>> {
    var h := Header + NewLine;
    if |s| >= |h| && s[..|h|] == h then ReadRecords(s[|h|..]) else None
  }

  lemma {:induction false} ReadUntilPlain(f: string, delim: char, rest: string)
    requires forall i :: 0 <= i < |f| ==> f[i] != delim
    ensures ReadUntil(f + [delim] + rest, delim) == Some((f, rest))
  {
    if f != [] {
      ReadUntilPlain(f[1..], delim, rest);
      assert (f + [delim] + rest)[1..] == f[1..] + [delim] + rest;
      assert f == [f[0]] + f[1..];
    }
  }

  /** A doubled quote reads as one quote of the interior. */
  lemma ReadQuotedPairStep(t: string, w: string, rest: string)
    requires ReadQuoted(t) == Some((w, rest))
    ensures ReadQuoted("\"\"" + t) == Some(("\"" + w, rest))
  {
    assert ("\"\"" + t)[2..] == t;
  }

  /** Any other character reads as itself. */
  lemma ReadQuotedCharStep(c: char, t: string, w: string, rest: string)
    requires c != '"' && ReadQuoted(t) == Some((w, rest))
    ensures ReadQuoted([c] + t) == Some(([c] + w, rest))
  {
    assert ([c] + t)[1..] == t;
  }

  /** The doubled text of a non-empty value, then a closing quote and more. */
  lemma DoubleStep(v: string, rest: string)
    requires v != []
    ensures Double(v) + "\"" + rest
         == (if v[0] == '"' then "\"\"" else [v[0]]) + (Double(v[1..]) + "\"" + rest)
  {
  }

  /** A value starting with a quote: its doubled quote reads as one quote. */
  lemma ReadQuotedPair(v: string, rest: string)
    requires v != [] && v[0] == '"'
    requires ReadQuoted(Double(v[1..]) + "\"" + rest) == Some((v[1..], rest))
    ensures ReadQuoted(Double(v) + "\"" + rest) == Some((v, rest))
  {
    DoubleStep(v, rest);
    ReadQuotedPairStep(Double(v[1..]) + "\"" + rest, v[1..], rest);
    assert "\"" + v[1..] == v;
  }

  /** A value starting with any other character: that character reads as itself. */
  lemma ReadQuotedChar(v: string, rest: string)
    requires v != [] && v[0] != '"'
    requires ReadQuoted(Double(v[1..]) + "\"" + rest) == Some((v[1..], rest))
    ensures ReadQuoted(Double(v) + "\"" + rest) == Some((v, rest))
  {
    DoubleStep(v, rest);
    ReadQuotedCharStep(v[0], Double(v[1..]) + "\"" + rest, v[1..], rest);
    assert [v[0]] + v[1..] == v;
  }

  lemma {:induction false} ReadQuotedDouble(v: string, rest: string)
    requires rest == [] || rest[0] != '"'
    ensures ReadQuoted(Double(v) + "\"" + rest) == Some((v, rest))
  {
    if v == [] {
      assert Double(v) + "\"" + rest == "\"" + rest;
    } else {
      ReadQuotedDouble(v[1..], rest);
      if v[0] == '"' {
        ReadQuotedPair(v, rest);
      } else {
        ReadQuotedChar(v, rest);
      }
    }
  }

  lemma ReadEscThen(v: string, delim: char, rest: string)
    requires delim != '"'
    ensures ReadQuotedThen(Esc(v) + [delim] + rest, delim) == Some((v, rest))
  {
    var s := Esc(v) + [delim] + rest;
    assert s[1..] == Double(v) + "\"" + ([delim] + rest);
    ReadQuotedDouble(v, [delim] + rest);
  }

  /** A line of a writable record reads back as that record. */
  lemma ReadLine(r: CsvRecord, rest: string)
    requires Writable(r)
    ensures ReadRecord(LineOf(r) + rest) == Some((r, rest))
  {
    var t3 := r.amount + ['\n'] + rest;
    var t2 := Esc(r.category) + [','] + t3;
    var t1 := Esc(r.name) + [','] + t2;
    assert LineOf(r) + rest == r.date + [','] + t1;
    ReadUntilPlain(r.date, ',', t1);
    ReadEscThen(r.name, ',', t2);
    ReadEscThen(r.category, ',', t3);
    ReadUntilPlain(r.amount, '\n', rest);
  }

  /** A record, then the records after it. */
  lemma ReadRecordsStep(s: string, rec: CsvRecord, rest: string, more: seq<CsvRecord>)
    requires ReadRecord(s) == Some((rec, rest)) && ReadRecords(rest) == Some(more)
    ensures ReadRecords(s) == Some([rec] + more)
  {
  }

  /** The lines of writable records read back as exactly those records. */
  lemma {:induction false} ReadLines(recs: seq<CsvRecord>)
    requires forall i :: 0 <= i < |recs| ==> Writable(recs[i])
    ensures ReadRecords(Concat(Lines(recs))) == Some(recs)
  {
    if recs != [] {
      var ls := Lines(recs);
      assert ls[1..] == Lines(recs[1..]);
      var rest := Concat(ls[1..]);
      ReadLine(recs[0], rest);
      ReadLines(recs[1..]);
      ReadRecordsStep(Concat(ls), recs[0], rest, recs[1..]);
      assert recs == [recs[0]] + recs[1..];
    }
  }

  /** The export reads back as the header followed by exactly one record per
      row, in order, holding the row's date, name, category name and amount. */
  lemma CsvRoundTrip(rows: seq<Expense>, cats: seq<Category>)
    ensures ReadCsv(CsvDocument(rows, cats)) == Some(RecordsOf(rows, cats))
  {
    var h := Header + NewLine;
    var s := CsvDocument(rows, cats);
    assert s[..|h|] == h && s[|h|..] == Concat(Lines(RecordsOf(rows, cats)));
    ReadLines(RecordsOf(rows, cats));
  }
}
