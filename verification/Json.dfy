/** JSON values, their compact text, and a reader for the grammar of RFC 8259. A number with a fraction or an
    exponent is kept exactly, as a whole number and a power of ten. */
module Json {
  import opened Wrappers
  import opened Decimal
  import opened JsonText

  datatype Value =
    | Null
    | Bool(b: bool)
    | Num(n: int)
    | Dec(mantissa: int, exponent: int)
    | Str(s: string)
    | Arr(items: seq<Value>)
    | Obj(fields: seq<Field>)

  datatype Field = Field(key: string, value: Value)

  /** The value of a key; a repeated key takes its last value. */
  function Get(fields: seq<Field>, key: string): Option<Value> {
    if fields == [] then None
    else
      var last := fields[|fields| - 1];
      if last.key == key then Some(last.value) else Get(fields[..|fields| - 1], key)
  }

  function Lookup(v: Value, key: string): Option<Value> {
    if v.Obj? then Get(v.fields, key) else None
  }

  /** The string under a key, if there is one. */
  function StringAt(v: Value, key: string): Option<string> {
    match Lookup(v, key)
    case Some(Str(s)) => Some(s)
    case _ => None
  }

  lemma GetSnoc(fields: seq<Field>, last: Field, key: string)
    ensures Get(fields + [last], key) == if last.key == key then Some(last.value) else Get(fields, key)
  {
    assert (fields + [last])[..|fields|] == fields;
  }

  // ---------- compact text ----------

  function Quoted(s: string): string {
    "\"" + Escaped(s) + "\""
  }

  function Print(v: Value): string
    decreases v, 0
  {
    match v
    case Null => "null"
    case Bool(b) => if b then "true" else "false"
    case Num(n) => ToString(n)
    case Dec(mantissa, exponent) => ToString(mantissa) + "e" + ToString(exponent)
    case Str(s) => Quoted(s)
    case Arr(items) => "[" + PrintItems(items) + "]"
    case Obj(fields) => "{" + PrintFields(fields) + "}"
  }

  function PrintItems(items: seq<Value>): string
    decreases items, 1
  {
    if items == [] then ""
    else if |items| == 1 then Print(items[0])
    else Print(items[0]) + "," + PrintItems(items[1..])
  }

  function PrintFields(fields: seq<Field>): string
    decreases fields, 1
  {
    if fields == [] then ""
    else if |fields| == 1 then PrintField(fields[0])
    else PrintField(fields[0]) + "," + PrintFields(fields[1..])
  }

  function PrintField(f: Field): string
    decreases f, 1
  {
    Quoted(f.key) + ":" + Print(f.value)
  }

  // ---------- reader ----------

  predicate IsBlank(c: char) {
    c == ' ' || c == '\t' || c == '\n' || c == '\r'
  }

  function SkipBlanks(s: string): (rest: string)
    ensures |rest| <= |s|
    ensures s != [] && !IsBlank(s[0]) ==> rest == s
  {
    if s != [] && IsBlank(s[0]) then SkipBlanks(s[1..]) else s
  }

  /** Consumes `word` at the front of `s`. */
  function Eat(word: string, s: string): (r: Option<string>)
    ensures r.Some? ==> |r.value| + |word| == |s|
  {
    if word <= s then Some(s[|word|..]) else None
  }

  /** A number without sign: no digits or a leading zero before another digit is refused. */
  function ReadNat(s: string): (r: Option<(nat, string)>)
    ensures r.Some? ==> |r.value.1| < |s|
  {
    if !StartsWithDigit(s) then None
    else if s[0] == '0' && StartsWithDigit(s[1..]) then None
    else Some(ReadDigits(s[1..], s[0] as int - '0' as int))
  }

  /** A fraction behind the whole part `n`: the digits together, how many follow the point, and the rest. */
  function ReadFraction(n: nat, s: string): (r: Option<(nat, nat, string)>)
    ensures r.Some? ==> |r.value.2| <= |s|
  {
    if s == [] || s[0] != '.' then Some((n, 0, s))
    else if !StartsWithDigit(s[1..]) then None
    else
      var (m, rest) := ReadDigits(s[1..], n);
      Some((m, |s| - 1 - |rest|, rest))
  }

  function ReadSign(s: string): (int, string) {
    if s != [] && s[0] == '-' then (-1, s[1..])
    else if s != [] && s[0] == '+' then (1, s[1..])
    else (1, s)
  }

  function ReadExponent(s: string): (r: Option<(int, string)>)
    ensures r.Some? ==> |r.value.1| <= |s|
  {
    if s == [] || (s[0] != 'e' && s[0] != 'E') then Some((0, s))
    else
      var (sign, digits) := ReadSign(s[1..]);
      if !StartsWithDigit(digits) then None
      else
        var (n, rest) := ReadDigits(digits, 0);
        Some((sign * n, rest))
  }

  /** A number behind its sign: whole, if neither a fraction nor an exponent follows. */
  function ReadUnsigned(sign: int, s: string): (r: Option<(Value, string)>)
    ensures r.Some? ==> |r.value.1| < |s|
  {
    match ReadNat(s)
    case None => None
    case Some((n, rest)) =>
      match ReadFraction(n, rest)
      case None => None
      case Some((m, places, rest')) =>
        match ReadExponent(rest')
        case None => None
        case Some((e, rest'')) =>
          Some((if rest'' == rest then Num(sign * n) else Dec(sign * m, e - places), rest''))
  }

  function ReadNumber(s: string): (r: Option<(Value, string)>)
    ensures r.Some? ==> |r.value.1| < |s|
  {
    if s != [] && s[0] == '-' then ReadUnsigned(-1, s[1..]) else ReadUnsigned(1, s)
  }

  /** What may follow a number without being taken for a part of it. */
  predicate EndsNumber(rest: string) {
    rest == [] || !(IsDigit(rest[0]) || rest[0] == '.' || rest[0] == 'e' || rest[0] == 'E')
  }

  function ReadWord(word: string, v: Value, s: string): (r: Option<(Value, string)>)
    requires word != []
    ensures r.Some? ==> |r.value.1| < |s|
  {
    match Eat(word, s)
    case Some(rest) => Some((v, rest))
    case None => None
  }

  /** A value, blanks before it allowed, and what follows it. */
  function ReadValue(text: string): (r: Option<(Value, string)>)
    ensures r.Some? ==> |r.value.1| < |text|
    decreases |text|, 0
  {
    var s := SkipBlanks(text);
    if s == [] then None
    else match s[0]
      case 'n' => ReadWord("null", Null, s)
      case 't' => ReadWord("true", Bool(true), s)
      case 'f' => ReadWord("false", Bool(false), s)
      case '\"' =>
        (match ReadString(s[1..])
         case Some((contents, rest)) => Some((Str(contents), rest))
         case None => None)
      case '[' =>
        var inner := SkipBlanks(s[1..]);
        if inner != [] && inner[0] == ']' then Some((Arr([]), inner[1..]))
        else (match ReadItems(inner)
              case Some((items, rest)) => Some((Arr(items), rest))
              case None => None)
      case '{' =>
        var inner := SkipBlanks(s[1..]);
        if inner != [] && inner[0] == '}' then Some((Obj([]), inner[1..]))
        else (match ReadFields(inner)
              case Some((fields, rest)) => Some((Obj(fields), rest))
              case None => None)
      case _ => ReadNumber(s)
  }

  /** One or more values separated by commas, up to the closing bracket. */
  function ReadItems(text: string): (r: Option<(seq<Value>, string)>)
    ensures r.Some? ==> |r.value.1| < |text|
    decreases |text|, 1
  {
    match ReadValue(text)
    case None => None
    case Some((v, after)) =>
      var s := SkipBlanks(after);
      if s == [] then None
      else if s[0] == ']' then Some(([v], s[1..]))
      else if s[0] == ',' then
        match ReadItems(s[1..])
        case None => None
        case Some((items, rest)) => Some(([v] + items, rest))
      else None
  }

  /** A key, a colon and a value. */
  function ReadField(text: string): (r: Option<(Field, string)>)
    ensures r.Some? ==> |r.value.1| < |text|
    decreases |text|, 1
  {
    var s := SkipBlanks(text);
    if s == [] || s[0] != '"' then None
    else match ReadString(s[1..])
      case None => None
      case Some((key, after)) =>
        var t := SkipBlanks(after);
        if t == [] || t[0] != ':' then None
        else match ReadValue(t[1..])
          case None => None
          case Some((v, rest)) => Some((Field(key, v), rest))
  }

  /** One or more fields separated by commas, up to the closing brace. */
  function ReadFields(text: string): (r: Option<(seq<Field>, string)>)
    ensures r.Some? ==> |r.value.1| < |text|
    decreases |text|, 2
  {
    match ReadField(text)
    case None => None
    case Some((f, after)) =>
      var s := SkipBlanks(after);
      if s == [] then None
      else if s[0] == '}' then Some(([f], s[1..]))
      else if s[0] == ',' then
        match ReadFields(s[1..])
        case None => None
        case Some((fields, rest)) => Some(([f] + fields, rest))
      else None
  }

  /** A whole document: one value and nothing but blanks around it. */
  function Parse(text: string): Option<Value> {
    match ReadValue(text)
    case Some((v, rest)) => if SkipBlanks(rest) == [] then Some(v) else None
    case None => None
  }

  // ---------- the reader inverts the writer ----------

  lemma ReadNatOfDigits(n: nat, rest: string)
    requires !StartsWithDigit(rest)
    ensures ReadNat(Digits(n) + rest) == Some((n, rest))
  {
    var s := Digits(n) + rest;
    FirstDigit(n);
    ReadDigitsOfDigits(n, rest);
    assert s[0] == Digits(n)[0];
    assert ReadDigits(s, 0) == ReadDigits(s[1..], s[0] as int - '0' as int);
    if n == 0 { assert s[1..] == rest; }
  }

  lemma ReadWhole(sign: int, n: nat, rest: string)
    requires EndsNumber(rest)
    ensures ReadUnsigned(sign, Digits(n) + rest) == Some((Num(sign * n), rest))
  {
    ReadNatOfDigits(n, rest);
    hide ReadNat, Digits;
  }

  lemma ReadDigitsBehind(n: nat, rest: string)
    requires EndsNumber(rest)
    ensures StartsWithDigit(Digits(n) + rest) && ReadDigits(Digits(n) + rest, 0) == (n, rest)
    ensures (Digits(n) + rest)[0] != '-' && (Digits(n) + rest)[0] != '+'
  {
    FirstDigit(n);
    ReadDigitsOfDigits(n, rest);
    assert (Digits(n) + rest)[0] == Digits(n)[0];
  }

  lemma ReadExponentOfPrint(e: int, rest: string)
    requires EndsNumber(rest)
    ensures ReadExponent("e" + ToString(e) + rest) == Some((e, rest))
  {
    var n := if e < 0 then -e else e;
    var s := "e" + ToString(e) + rest;
    ReadDigitsBehind(n, rest);
    if e < 0 {
      assert s[1..][1..] == Digits(n) + rest;
    } else {
      assert s[1..] == Digits(n) + rest;
    }
    hide Digits, ReadDigits, StartsWithDigit, EndsNumber;
  }

  lemma ReadPower(sign: int, s: string, n: nat, after: string, e: int, rest: string)
    requires ReadNat(s) == Some((n, after)) && after != [] && after[0] == 'e' && ReadExponent(after) == Some((e, rest))
    requires |rest| < |after|
    ensures ReadUnsigned(sign, s) == Some((Dec(sign * n, e), rest))
  {
    hide ReadNat, ReadExponent;
  }

  lemma ReadDec(sign: int, n: nat, e: int, rest: string)
    requires EndsNumber(rest)
    ensures ReadUnsigned(sign, Digits(n) + ("e" + ToString(e) + rest)) == Some((Dec(sign * n, e), rest))
  {
    var after := "e" + ToString(e) + rest;
    assert after[0] == 'e';
    ReadNatOfDigits(n, after);
    ReadExponentOfPrint(e, rest);
    hide *;
    ReadPower(sign, Digits(n) + after, n, after, e, rest);
  }

  lemma ToStringStart(n: int)
    ensures ToString(n) != [] && (ToString(n)[0] == '-' <==> n < 0) && (n >= 0 ==> IsDigit(ToString(n)[0]))
  {
    if n >= 0 { FirstDigit(n); }
  }

  /** The sign of a printed number is read off before its digits. */
  lemma ReadSigned(n: int, tail: string)
    ensures ReadNumber(ToString(n) + tail) ==
            if n < 0 then ReadUnsigned(-1, Digits(-n) + tail) else ReadUnsigned(1, Digits(n) + tail)
  {
    var text := ToString(n) + tail;
    ToStringStart(n);
    assert text[0] == ToString(n)[0];
    assert n < 0 ==> text[1..] == Digits(-n) + tail;
    hide ReadUnsigned, Digits, IsDigit;
  }

  lemma ReadNumberOfPrint(n: int, rest: string)
    requires EndsNumber(rest)
    ensures ReadNumber(ToString(n) + rest) == Some((Num(n), rest))
  {
    hide *;
    ReadSigned(n, rest);
    if n < 0 { ReadWhole(-1, -n, rest); } else { ReadWhole(1, n, rest); }
  }

  lemma ReadDecOfPrint(m: int, e: int, rest: string)
    requires EndsNumber(rest)
    ensures ReadNumber(ToString(m) + ("e" + ToString(e) + rest)) == Some((Dec(m, e), rest))
  {
    hide *;
    ReadSigned(m, "e" + ToString(e) + rest);
    if m < 0 { ReadDec(-1, -m, e, rest); } else { ReadDec(1, m, e, rest); }
  }

  predicate PlainStart(c: char) {
    !IsBlank(c) && c != ']' && c != '}'
  }

  /** Printed values start with neither a blank nor a closing bracket. */
  lemma PrintStart(v: Value)
    ensures Print(v) != [] && PlainStart(Print(v)[0])
  {
    if v.Num? { ToStringStart(v.n); }
    if v.Dec? { ToStringStart(v.mantissa); }
  }

  lemma ReadValueOfWord(text: string, word: string, v: Value, rest: string)
    requires text == word + rest
    requires (word == "null" && v == Null) || (word == "true" && v == Bool(true)) || (word == "false" && v == Bool(false))
    ensures ReadValue(text) == Some((v, rest))
  {
    hide ReadItems, ReadFields, ReadNumber, ReadString;
    assert text[0] == word[0] && text[|word|..] == rest && word <= text;
  }

  lemma ReadValueOfNumber(text: string)
    requires text != [] && (text[0] == '-' || IsDigit(text[0]))
    ensures ReadValue(text) == ReadNumber(text)
  {
    hide ReadItems, ReadFields, ReadNumber, ReadString;
  }

  lemma ReadValueOfString(text: string, s: string, rest: string)
    requires text != [] && text[0] == '"' && ReadString(text[1..]) == Some((s, rest))
    ensures ReadValue(text) == Some((Str(s), rest))
  {
    hide ReadItems, ReadFields, ReadNumber, ReadString;
  }

  lemma QuotedText(s: string, rest: string)
    ensures var text := Quoted(s) + rest;
      text != [] && text[0] == '"' && text[1..] == Escaped(s) + "\"" + rest
  {
    hide Escaped;
  }

  lemma NumberText(m: int, e: int, rest: string)
    ensures var text := ToString(m) + rest; text != [] && (text[0] == '-' || IsDigit(text[0]))
    ensures ToString(m) + "e" + ToString(e) + rest == ToString(m) + ("e" + ToString(e) + rest)
  {
    ToStringStart(m);
    hide ToString, IsDigit;
    assert (ToString(m) + rest)[0] == ToString(m)[0];
  }

  lemma {:induction false} ReadValueOfPrint(v: Value, rest: string)
    requires EndsNumber(rest)
    ensures ReadValue(Print(v) + rest) == Some((v, rest))
    decreases v, 0
  {
    hide ReadValue, ReadNumber, ReadString, Quoted, ToString, EndsNumber, IsDigit, PrintItems, PrintFields;
    match v
    case Null => ReadValueOfWord("null" + rest, "null", Null, rest);
    case Bool(b) =>
      if b { ReadValueOfWord("true" + rest, "true", Bool(true), rest); }
      else { ReadValueOfWord("false" + rest, "false", Bool(false), rest); }
    case Num(n) =>
      NumberText(n, 0, rest);
      ReadValueOfNumber(ToString(n) + rest);
      ReadNumberOfPrint(n, rest);
    case Dec(m, e) =>
      NumberText(m, e, rest);
      NumberText(m, e, "e" + ToString(e) + rest);
      ReadValueOfNumber(ToString(m) + ("e" + ToString(e) + rest));
      ReadDecOfPrint(m, e, rest);
    case Str(s) =>
      QuotedText(s, rest);
      ReadStringOfEscaped(s, rest);
      ReadValueOfString(Quoted(s) + rest, s, rest);
    case Arr(items) =>
      ReadArrOfPrint(items, rest);
    case Obj(fields) =>
      ReadObjOfPrint(fields, rest);
  }

  lemma ReadEmpty(text: string, rest: string)
    requires |text| >= 2 && text[2..] == rest
    ensures text[0] == '[' && text[1] == ']' ==> ReadValue(text) == Some((Arr([]), rest))
    ensures text[0] == '{' && text[1] == '}' ==> ReadValue(text) == Some((Obj([]), rest))
  {
    hide ReadItems, ReadFields;
    assert text[1..][1..] == rest;
  }

  lemma ReadNonEmptyArr(text: string, items: seq<Value>, rest: string)
    requires |text| >= 2 && text[0] == '[' && PlainStart(text[1])
    requires ReadItems(text[1..]) == Some((items, rest))
    ensures ReadValue(text) == Some((Arr(items), rest))
  {
    hide ReadItems, ReadFields;
  }

  lemma ReadNonEmptyObj(text: string, fields: seq<Field>, rest: string)
    requires |text| >= 2 && text[0] == '{' && PlainStart(text[1])
    requires ReadFields(text[1..]) == Some((fields, rest))
    ensures ReadValue(text) == Some((Obj(fields), rest))
  {
    hide ReadItems, ReadFields;
  }

  lemma {:induction false} ReadArrOfPrint(items: seq<Value>, rest: string)
    ensures ReadValue("[" + PrintItems(items) + "]" + rest) == Some((Arr(items), rest))
    decreases items, 3
  {
    hide ReadValue, ReadItems, Print;
    var text := "[" + PrintItems(items) + "]" + rest;
    if items == [] {
      assert text[2..] == rest;
      ReadEmpty(text, rest);
    } else {
      assert text[1..] == PrintItems(items) + "]" + rest;
      PrintStart(items[0]);
      assert text[1] == Print(items[0])[0];
      ReadItemsOfPrint(items, rest);
      ReadNonEmptyArr(text, items, rest);
    }
  }

  /** Reading items whose text is one value and a closing bracket, or one value, a comma and more. */
  lemma ReadItemsStep(text: string, v: Value, after: string)
    requires ReadValue(text) == Some((v, after)) && after != []
    ensures after[0] == ']' ==> ReadItems(text) == Some(([v], after[1..]))
    ensures after[0] == ',' && ReadItems(after[1..]).Some? ==>
              ReadItems(text) == Some(([v] + ReadItems(after[1..]).value.0, ReadItems(after[1..]).value.1))
  {
  }

  lemma ReadFieldsStep(text: string, f: Field, after: string)
    requires ReadField(text) == Some((f, after)) && after != []
    ensures after[0] == '}' ==> ReadFields(text) == Some(([f], after[1..]))
    ensures after[0] == ',' && ReadFields(after[1..]).Some? ==>
              ReadFields(text) == Some(([f] + ReadFields(after[1..]).value.0, ReadFields(after[1..]).value.1))
  {
  }

  lemma ReadFieldStep(text: string, key: string, after: string, v: Value, rest: string)
    requires text != [] && text[0] == '"' && ReadString(text[1..]) == Some((key, after))
    requires after != [] && after[0] == ':' && ReadValue(after[1..]) == Some((v, rest))
    ensures ReadField(text) == Some((Field(key, v), rest))
  {
  }

  lemma {:induction false} ReadItemsOfPrint(items: seq<Value>, rest: string)
    requires items != []
    ensures ReadItems(PrintItems(items) + "]" + rest) == Some((items, rest))
    decreases items, 2
  {
    hide ReadItems, ReadValue, Print;
    var text := PrintItems(items) + "]" + rest;
    if |items| == 1 {
      var after := "]" + rest;
      assert text == Print(items[0]) + after;
      ReadValueOfPrint(items[0], after);
      ReadItemsStep(text, items[0], after);
      assert after[1..] == rest && [items[0]] == items;
    } else {
      hide PrintItems;
      var tail := PrintItems(items[1..]) + "]" + rest;
      ReadValueOfPrint(items[0], "," + tail);
      ReadItemsOfPrint(items[1..], rest);
      ItemsText(items, rest);
      hide *;
      ReadItemsMore(text, items[0], tail, items[1..], rest);
      assert [items[0]] + items[1..] == items;
    }
  }

  lemma ItemsText(items: seq<Value>, rest: string)
    requires |items| > 1
    ensures PrintItems(items) + "]" + rest ==
            Print(items[0]) + ("," + (PrintItems(items[1..]) + "]" + rest))
  {
    var head, tail := Print(items[0]), PrintItems(items[1..]);
    assert PrintItems(items) == head + "," + tail;
    hide *;
    CommaText(head, tail, "]", rest);
  }

  lemma CommaText(head: string, tail: string, close: string, rest: string)
    ensures head + "," + tail + close + rest == head + ("," + (tail + close + rest))
  {
  }

  lemma ReadItemsMore(text: string, v: Value, tail: string, more: seq<Value>, rest: string)
    requires ReadValue(text) == Some((v, "," + tail)) && ReadItems(tail) == Some((more, rest))
    ensures ReadItems(text) == Some(([v] + more, rest))
  {
    assert ("," + tail)[1..] == tail;
    ReadItemsStep(text, v, "," + tail);
  }

  lemma {:induction false} ReadFieldOfPrint(f: Field, rest: string)
    requires EndsNumber(rest)
    ensures ReadField(PrintField(f) + rest) == Some((f, rest))
    decreases f, 2
  {
    var text := PrintField(f) + rest;
    var after := ":" + Print(f.value) + rest;
    FieldText(f, rest);
    ReadStringOfEscaped(f.key, after);
    ReadValueOfPrint(f.value, rest);
    ReadFieldStep(text, f.key, after, f.value, rest);
  }

  lemma FieldText(f: Field, rest: string)
    ensures var text, after := PrintField(f) + rest, ":" + Print(f.value) + rest;
      text != [] && text[0] == '"' && text[1..] == Escaped(f.key) + "\"" + after && after[1..] == Print(f.value) + rest
  {
    var key, value := Escaped(f.key), Print(f.value);
    assert PrintField(f) == ("\"" + key + "\"") + ":" + value;
    hide *;
    KeyAndValueText(key, value, rest);
  }

  lemma KeyAndValueText(key: string, value: string, rest: string)
    ensures var text, after := ("\"" + key + "\"") + ":" + value + rest, ":" + value + rest;
      text != [] && text[0] == '"' && text[1..] == key + "\"" + after && after[1..] == value + rest
  {
  }

  lemma {:induction false} ReadFieldsOfPrint(fields: seq<Field>, rest: string)
    requires fields != []
    ensures ReadFields(PrintFields(fields) + "}" + rest) == Some((fields, rest))
    decreases fields, 3
  {
    hide ReadFields, ReadField, PrintField;
    var text := PrintFields(fields) + "}" + rest;
    if |fields| == 1 {
      var after := "}" + rest;
      assert text == PrintField(fields[0]) + after;
      ReadFieldOfPrint(fields[0], after);
      ReadFieldsStep(text, fields[0], after);
      assert after[1..] == rest && [fields[0]] == fields;
    } else {
      hide PrintFields;
      var tail := PrintFields(fields[1..]) + "}" + rest;
      ReadFieldOfPrint(fields[0], "," + tail);
      ReadFieldsOfPrint(fields[1..], rest);
      FieldsText(fields, rest);
      hide *;
      ReadFieldsMore(text, fields[0], tail, fields[1..], rest);
      assert [fields[0]] + fields[1..] == fields;
    }
  }

  lemma FieldsText(fields: seq<Field>, rest: string)
    requires |fields| > 1
    ensures PrintFields(fields) + "}" + rest ==
            PrintField(fields[0]) + ("," + (PrintFields(fields[1..]) + "}" + rest))
  {
    var head, tail := PrintField(fields[0]), PrintFields(fields[1..]);
    assert PrintFields(fields) == head + "," + tail;
    hide *;
    CommaText(head, tail, "}", rest);
  }

  lemma ReadFieldsMore(text: string, f: Field, tail: string, more: seq<Field>, rest: string)
    requires ReadField(text) == Some((f, "," + tail)) && ReadFields(tail) == Some((more, rest))
    ensures ReadFields(text) == Some(([f] + more, rest))
  {
    assert ("," + tail)[1..] == tail;
    ReadFieldsStep(text, f, "," + tail);
  }

  lemma {:induction false} ReadObjOfPrint(fields: seq<Field>, rest: string)
    ensures ReadValue("{" + PrintFields(fields) + "}" + rest) == Some((Obj(fields), rest))
    decreases fields, 4
  {
    hide ReadValue, ReadFields;
    var text := "{" + PrintFields(fields) + "}" + rest;
    if fields == [] {
      assert text[2..] == rest;
      ReadEmpty(text, rest);
    } else {
      assert text[1..] == PrintFields(fields) + "}" + rest;
      FieldStart(fields[0]);
      hide PrintField;
      assert text[1] == PrintField(fields[0])[0];
      ReadFieldsOfPrint(fields, rest);
      ReadNonEmptyObj(text, fields, rest);
    }
  }

  lemma FieldStart(f: Field)
    ensures PrintField(f) != [] && PrintField(f)[0] == '"'
  {
  }

  /** Reading the compact text of any value gives that value back. */
  lemma ParseOfPrint(v: Value)
    ensures Parse(Print(v)) == Some(v)
  {
    assert Print(v) + [] == Print(v);
    ReadValueOfPrint(v, []);
  }

  ghost predicate Blank(s: string) {
    forall i | 0 <= i < |s| :: s[i] == ' ' || s[i] == '\t' || s[i] == '\n' || s[i] == '\r'
  }

  lemma {:induction false} SkipBlanksExactly(s: string) returns (n: nat)
    ensures n <= |s| && Blank(s[..n]) && SkipBlanks(s) == s[n..] && (n < |s| ==> !Blank([s[n]]))
    ensures SkipBlanks(s) == [] <==> Blank(s)
    decreases |s|
  {
    n := 0;
    if s != [] {
      assert Blank([s[0]]) <==> IsBlank([s[0]][0]);
      if IsBlank(s[0]) {
        n := SkipBlanksExactly(s[1..]);
        assert forall i | 0 < i < |s| :: s[1..][i - 1] == s[i];
        assert s[..n + 1] == [s[0]] + s[1..][..n];
        n := n + 1;
      }
    }
  }

  lemma {:induction false} SkipBlanksBefore(before: string, text: string)
    requires Blank(before)
    ensures SkipBlanks(before + text) == SkipBlanks(text)
    decreases |before|
  {
    if before == "" {
      assert before + text == text;
    } else {
      assert (before + text)[0] == before[0] && (before + text)[1..] == before[1..] + text;
      assert forall i | 0 < i < |before| :: before[1..][i - 1] == before[i];
      SkipBlanksBefore(before[1..], text);
    }
  }

  lemma ReadValueBehindBlanks(before: string, text: string)
    requires Blank(before)
    ensures ReadValue(before + text) == ReadValue(text)
  {
    SkipBlanksBefore(before, text);
    hide SkipBlanks, ReadWord, ReadString, ReadNumber;
  }

  /** A document is one value, with blanks around it and nothing else: what follows the text of a value must be
      blank, or the whole is refused. */
  lemma ParseTakesTheWhole(before: string, v: Value, after: string)
    requires Blank(before) && EndsNumber(after)
    ensures Parse(before + Print(v) + after) == if Blank(after) then Some(v) else None
  {
    assert before + Print(v) + after == before + (Print(v) + after);
    ReadValueBehindBlanks(before, Print(v) + after);
    ReadValueOfPrint(v, after);
    var n := SkipBlanksExactly(after);
    hide ReadValue, SkipBlanks, Print, Blank;
  }

  // ---------- printed text is one line ----------

  ghost predicate NoLineBreak(s: string) {
    '\n' !in s
  }

  lemma {:induction false} DigitsHaveNoLineBreak(n: nat)
    ensures NoLineBreak(Digits(n))
  {
    if n >= 10 { DigitsHaveNoLineBreak(n / 10); }
  }

  lemma NumberHasNoLineBreak(n: int)
    ensures NoLineBreak(ToString(n))
  {
    DigitsHaveNoLineBreak(if n < 0 then -n else n);
  }

  lemma QuotedHasNoLineBreak(s: string)
    ensures NoLineBreak(Quoted(s))
  {
    EscapedIsPrintable(s);
  }

  lemma {:induction false} PrintHasNoLineBreak(v: Value)
    ensures NoLineBreak(Print(v))
    decreases v, 0
  {
    match v
    case Null =>
    case Bool(b) =>
    case Num(n) => NumberHasNoLineBreak(n);
    case Dec(mantissa, exponent) =>
      NumberHasNoLineBreak(mantissa);
      NumberHasNoLineBreak(exponent);
    case Str(s) => QuotedHasNoLineBreak(s);
    case Arr(items) => PrintItemsHaveNoLineBreak(items);
    case Obj(fields) => PrintFieldsHaveNoLineBreak(fields);
  }

  lemma {:induction false} PrintItemsHaveNoLineBreak(items: seq<Value>)
    ensures NoLineBreak(PrintItems(items))
    decreases items, 1
  {
    if items != [] {
      PrintHasNoLineBreak(items[0]);
      if |items| > 1 { PrintItemsHaveNoLineBreak(items[1..]); }
    }
  }

  lemma {:induction false} PrintFieldsHaveNoLineBreak(fields: seq<Field>)
    ensures NoLineBreak(PrintFields(fields))
    decreases fields, 1
  {
    if fields != [] {
      QuotedHasNoLineBreak(fields[0].key);
      PrintHasNoLineBreak(fields[0].value);
      if |fields| > 1 { PrintFieldsHaveNoLineBreak(fields[1..]); }
    }
  }
}
