/** The Multibanco SMS text and a parser that reads its three fields back. */
module SmsTemplate {
  import opened JsValues

  /** The sender name every SMS carries. */
  const Sender: string := "LumaLine"

  const Header: string := "Pagamento Multibanco\nEntidade "
  const RefLabel: string := "\nRef "
  const AmountLabel: string := "\nValor "
  const Euro: char := '\U{20AC}'

  /** The values the template interpolates. */
  datatype Fields = Fields(entity: string, reference: string, amount: string)

  /** The message body: four lines, the last ending in the euro sign. */
  function Message(f: Fields): (m: string)
    ensures Header <= m
    ensures |m| == |Header| + |f.entity| + |RefLabel| + |f.reference| + |AmountLabel| + |f.amount| + 1
    ensures m[|m| - 1] == Euro
  {
    Header + (f.entity + (RefLabel + (f.reference + (AmountLabel + f.amount + [Euro]))))
  }

  /** The message spelled out with its literal labels, left to right. */
  lemma MessageLiterals(f: Fields)
    ensures Message(f) == "Pagamento Multibanco\nEntidade " + f.entity + "\nRef " + f.reference +
                          "\nValor " + f.amount + "\U{20AC}"
  {
    var amountLine := AmountLabel + f.amount + [Euro];
    assert RefLabel + (f.reference + amountLine) == RefLabel + f.reference + amountLine;
    assert f.entity + (RefLabel + f.reference + amountLine) == f.entity + RefLabel + f.reference + amountLine;
    assert Header + (f.entity + RefLabel + f.reference + amountLine) == Header + f.entity + RefLabel + f.reference + amountLine;
    assert Header + f.entity + RefLabel + f.reference + amountLine
        == Header + f.entity + RefLabel + f.reference + AmountLabel + f.amount + [Euro];
  }

  /** The position of the first line break in `s`, if there is one. */
  function FirstNewline(s: string): (r: Option<nat>)
    ensures r.Some? ==> r.value < |s| && s[r.value] == '\n'
    ensures r.Some? ==> forall j :: 0 <= j < r.value ==> s[j] != '\n'
    ensures r.None? <==> '\n' !in s
  {
    if s == [] then None
    else if s[0] == '\n' then Some(0)
    else match FirstNewline(s[1..])
      case None => None
      case Some(k) => Some(k + 1)
  }

  /** Reads entity, reference and amount back out of a message text; `None`
      when the text does not have the template's shape. */
  function Parse(m: string): Option<Fields>
  {
    if Header <= m then ParseEntity(m[|Header|..]) else None
  }

  /** The entity runs up to the first line break, which must open the reference line. */
  function ParseEntity(rest: string): Option<Fields>
  {
    match FirstNewline(rest)
    case None => None
    case Some(i) =>
      if RefLabel <= rest[i..] then ParseReference(rest[..i], rest[i + |RefLabel|..]) else None
  }

  /** The reference runs up to the next line break, which must open the amount line. */
  function ParseReference(entity: string, rest: string): Option<Fields>
  {
    match FirstNewline(rest)
    case None => None
    case Some(j) => ParseAmount(entity, rest[..j], rest[j..])
  }

  /** The amount is everything between the amount label and the closing euro sign. */
  function ParseAmount(entity: string, reference: string, tail: string): Option<Fields>
  {
    if AmountLabel <= tail && |tail| > |AmountLabel| && tail[|tail| - 1] == Euro
    then Some(Fields(entity, reference, tail[|AmountLabel|..|tail| - 1]))
    else None
  }

  /** Entity and reference sit on lines of their own. */
  predicate SingleLine(f: Fields) {
    '\n' !in f.entity && '\n' !in f.reference
  }

  /** The first line break after a line-free prefix is the one that follows it. */
  lemma FirstNewlineAfter(a: string, b: string)
    requires '\n' !in a
    requires b != [] && b[0] == '\n'
    ensures FirstNewline(a + b) == Some(|a|)
  {
    assert (a + b)[|a|] == '\n';
    assert forall k :: 0 <= k < |a| ==> (a + b)[k] == a[k];
  }

  lemma ParseAmountLine(entity: string, reference: string, amount: string)
    ensures ParseAmount(entity, reference, AmountLabel + amount + [Euro]) == Some(Fields(entity, reference, amount))
  {
    var tail := AmountLabel + amount + [Euro];
    assert tail[|AmountLabel|..|tail| - 1] == amount;
  }

  lemma ParseReferenceLines(entity: string, reference: string, amount: string)
    requires '\n' !in reference
    ensures ParseReference(entity, reference + (AmountLabel + amount + [Euro])) == Some(Fields(entity, reference, amount))
  {
    var amountLine := AmountLabel + amount + [Euro];
    FirstNewlineAfter(reference, amountLine);
    assert (reference + amountLine)[..|reference|] == reference;
    assert (reference + amountLine)[|reference|..] == amountLine;
    ParseAmountLine(entity, reference, amount);
  }

  lemma ParseEntityLines(f: Fields)
    requires SingleLine(f)
    ensures ParseEntity(f.entity + (RefLabel + (f.reference + (AmountLabel + f.amount + [Euro])))) == Some(f)
  {
    var lower := f.reference + (AmountLabel + f.amount + [Euro]);
    var rest := f.entity + (RefLabel + lower);
    FirstNewlineAfter(f.entity, RefLabel + lower);
    assert rest[..|f.entity|] == f.entity;
    assert rest[|f.entity|..] == RefLabel + lower;
    assert rest[|f.entity| + |RefLabel|..] == lower;
    ParseReferenceLines(f.entity, f.reference, f.amount);
  }

  /** Round trip: the parser recovers exactly the fields a message was built from. */
  lemma ParseMessage(f: Fields)
    requires SingleLine(f)
    ensures Parse(Message(f)) == Some(f)
  {
    var rest := f.entity + (RefLabel + (f.reference + (AmountLabel + f.amount + [Euro])));
    assert Message(f) == Header + rest;
    assert (Header + rest)[|Header|..] == rest;
    ParseEntityLines(f);
  }

  lemma ParsedAmount(entity: string, reference: string, tail: string, f: Fields)
    requires ParseAmount(entity, reference, tail) == Some(f)
    ensures f.entity == entity && f.reference == reference
    ensures tail == AmountLabel + f.amount + [Euro]
  {
    assert tail == tail[..|AmountLabel|] + tail[|AmountLabel|..|tail| - 1] + [tail[|tail| - 1]];
  }

  lemma ParsedReference(entity: string, rest: string, f: Fields)
    requires ParseReference(entity, rest) == Some(f)
    ensures f.entity == entity && '\n' !in f.reference
    ensures rest == f.reference + (AmountLabel + f.amount + [Euro])
  {
    var j := FirstNewline(rest).value;
    ParsedAmount(entity, rest[..j], rest[j..], f);
    PrefixLineFree(rest, j);
    assert rest == rest[..j] + rest[j..];
  }

  /** Cutting `s` at `i`, where `marker` starts, and reassembling gives `s` back. */
  lemma Reassemble(s: string, i: nat, marker: string)
    requires i <= |s| && marker <= s[i..]
    ensures s == s[..i] + (marker + s[i + |marker|..])
  {
    assert s[i..] == marker + s[i + |marker|..];
    assert s == s[..i] + s[i..];
  }

  /** A line-free prefix of `s` ends before its first line break. */
  lemma PrefixLineFree(s: string, i: nat)
    requires i <= |s|
    requires forall k :: 0 <= k < i ==> s[k] != '\n'
    ensures '\n' !in s[..i]
  {
    assert forall k :: 0 <= k < i ==> s[..i][k] == s[k];
  }

  lemma ParsedEntity(rest: string, f: Fields)
    requires ParseEntity(rest) == Some(f)
    ensures SingleLine(f)
    ensures rest == f.entity + (RefLabel + (f.reference + (AmountLabel + f.amount + [Euro])))
  {
    var i := FirstNewline(rest).value;
    ParsedReference(rest[..i], rest[i + |RefLabel|..], f);
    PrefixLineFree(rest, i);
    Reassemble(rest, i, RefLabel);
  }

  /** Converse: every text the parser accepts is the message of what it returns. */
  lemma ParsedIsMessage(m: string, f: Fields)
    requires Parse(m) == Some(f)
    ensures SingleLine(f)
    ensures Message(f) == m
  {
    ParsedEntity(m[|Header|..], f);
    Reassemble(m, 0, Header);
    assert m[..0] == [];
  }

  /** Messages for line-free fields never coincide for different fields. */
  lemma MessageInjective(f: Fields, g: Fields)
    requires SingleLine(f) && SingleLine(g)
    requires Message(f) == Message(g)
    ensures f == g
  {
    ParseMessage(f);
    ParseMessage(g);
  }
}
