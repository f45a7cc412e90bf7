/** The CSV dialect of the report writer: `;` between fields, text fields in double quotes
    (a quote inside doubled), numeric fields bare, each row ended by "\r\n". */
module Csv {
  import opened Wrappers
  import opened Text

  /** A value handed to the writer: quoted when it is text, bare when it is a number. */
  datatype Field = TextField(text: string) | NumberField(value: int)

  const Delimiter := ';'
  const Quote := '"'
  const LineTerminator := "\r\n"

  function Escape(s: string): string {
    if s == [] then [] else (if s[0] == Quote then [Quote, Quote] else [s[0]]) + Escape(s[1..])
  }

  function RenderField(f: Field): string {
    match f
    case TextField(t) => [Quote] + Escape(t) + [Quote]
    case NumberField(n) => IntToString(n)
  }

  function RenderFields(fields: seq<Field>): string {
    if fields == [] then ""
    else if |fields| == 1 then RenderField(fields[0])
    else RenderField(fields[0]) + [Delimiter] + RenderFields(fields[1..])
  }

  /** One `writerow` call. */
  function RenderRow(fields: seq<Field>): string {
    RenderFields(fields) + LineTerminator
  }

  function RenderRows(rows: seq<seq<Field>>): string {
    if rows == [] then "" else RenderRows(rows[..|rows| - 1]) + RenderRow(rows[|rows| - 1])
  }

  /** Reads the inside of a quoted field up to its closing quote, undoing the doubling;
      returns the text and what follows the closing quote. */
  function ReadQuoted(s: string): (r: Option<(string, string)>)
    ensures r.Some? ==> |r.value.1| < |s|
  {
    if s == [] then None
    else if s[0] == Quote then
      if |s| >= 2 && s[1] == Quote then
        match ReadQuoted(s[2..])
        case Some((t, rest)) => Some(([Quote] + t, rest))
        case None => None
      else Some(("", s[1..]))
    else
      match ReadQuoted(s[1..])
      case Some((t, rest)) => Some(([s[0]] + t, rest))
      case None => None
  }

  function ParseField(s: string): (r: Option<(Field, string)>)
    ensures r.Some? ==> |r.value.1| < |s|
  {
    if |s| >= 1 && s[0] == Quote then
      match ReadQuoted(s[1..])
      case Some((t, rest)) => Some((TextField(t), rest))
      case None => None
    else
      var (digits, rest) := TakeUntil(s, Delimiter);
      match ParseInt(digits)
      case Some(n) => Some((NumberField(n), rest))
      case None => None
  }

  /** Reads back the fields of one rendered row (without its line terminator). */
  function ParseFields(s: string): Option<seq<Field>>
    decreases |s|
  {
    if s == [] then Some([])
    else match ParseField(s)
      case None => None
      case Some((f, rest)) =>
        if rest == [] then Some([f])
        else if rest[0] == Delimiter then
          match ParseFields(rest[1..])
          case Some(fs) => Some([f] + fs)
          case None => None
        else None
  }

  lemma {:induction false} ReadQuotedEscape(t: string, rest: string)
    requires rest == [] || rest[0] != Quote
    ensures ReadQuoted(Escape(t) + [Quote] + rest) == Some((t, rest))
  {
    var s := Escape(t) + [Quote] + rest;
    if t == [] {
      assert s == [Quote] + rest;
      assert s[1..] == rest;
    } else if t[0] == Quote {
      assert s == [Quote, Quote] + (Escape(t[1..]) + [Quote] + rest);
      assert s[2..] == Escape(t[1..]) + [Quote] + rest;
      ReadQuotedEscape(t[1..], rest);
      assert [Quote] + t[1..] == t;
    } else {
      assert s == [t[0]] + (Escape(t[1..]) + [Quote] + rest);
      assert s[1..] == Escape(t[1..]) + [Quote] + rest;
      ReadQuotedEscape(t[1..], rest);
      assert [t[0]] + t[1..] == t;
    }
  }

  /** A rendered field, followed by a delimiter or nothing, reads back as itself. */
  lemma ParseRenderedField(f: Field, rest: string)
    requires rest == [] || rest[0] == Delimiter
    ensures ParseField(RenderField(f) + rest) == Some((f, rest))
  {
    var s := RenderField(f) + rest;
    match f
    case TextField(t) =>
      assert s == [Quote] + (Escape(t) + [Quote] + rest);
      assert s[1..] == Escape(t) + [Quote] + rest;
      ReadQuotedEscape(t, rest);
    case NumberField(n) =>
      IntToStringAvoids(n, Quote);
      IntToStringAvoids(n, Delimiter);
      assert s[0] == IntToString(n)[0];
      TakeUntilUnique(IntToString(n), rest, Delimiter);
      ParseIntToString(n);
  }

  /** Every row of fields reads back from its rendering: quoting and `;` never confuse the reader. */
  lemma {:induction false} ParseRenderedFields(fields: seq<Field>)
    ensures ParseFields(RenderFields(fields)) == Some(fields)
  {
    if |fields| == 1 {
      ParseRenderedField(fields[0], "");
      assert RenderField(fields[0]) + "" == RenderField(fields[0]);
      assert |RenderField(fields[0])| >= 1 by {
        match fields[0]
        case TextField(_) =>
        case NumberField(n) =>
      }
      assert fields == [fields[0]];
    } else if |fields| > 1 {
      var rest := [Delimiter] + RenderFields(fields[1..]);
      ParseRenderedField(fields[0], rest);
      assert RenderFields(fields) == RenderField(fields[0]) + rest;
      assert rest[1..] == RenderFields(fields[1..]);
      ParseRenderedFields(fields[1..]);
      assert [fields[0]] + fields[1..] == fields;
    }
  }

  /** The StringIO buffer behind the report's `csv.writer`. */
  class CsvBuffer {
    var text: string

    constructor ()
      ensures text == ""
    {
      text := "";
    }

    method WriteRow(row: seq<Field>)
      modifies this
      ensures text == old(text) + RenderRow(row)
    {
      text := text + RenderFields(row) + LineTerminator;
    }
  }
}
