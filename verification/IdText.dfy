/**
 * Wallet ids as the transfer code really sees them: request strings on one side, the rows they denote
 * and the ids the database prints on the other. The rest of the project gives a row a number and assumes
 * that requests spell ids the way the database prints them. Here that assumption is justified (printed ids
 * sort as their numbers do, and are told apart correctly), and what happens without it is stated exactly.
 */
module IdText {
  import opened Base
  import opened Programs
  import opened Interleaving

  // ---- The text form of a UUID: 128 bits, 32 hexadecimal digits ----

  function Pow16(n: nat): (r: nat)
    ensures r >= 1
  {
    if n == 0 then 1 else 16 * Pow16(n - 1)
  }

  type Hex = d: nat | d < 16

  function HexDigit(d: Hex): char {
    if d < 10 then ('0' as int + d) as char else ('a' as int + d - 10) as char
  }

  /** Either case is read. */
  function HexValue(c: char): Option<Hex> {
    if '0' <= c <= '9' then Some(c as int - '0' as int)
    else if 'a' <= c <= 'f' then Some(c as int - 'a' as int + 10)
    else if 'A' <= c <= 'F' then Some(c as int - 'A' as int + 10)
    else None
  }

  /** The last n hexadecimal digits of a number, highest first. */
  function Digits(id: nat, n: nat): (ds: seq<Hex>)
    ensures |ds| == n
  {
    if n == 0 then [] else Digits(id / 16, n - 1) + [id % 16]
  }

  function Fold(ds: seq<Hex>, value: nat): nat {
    if ds == [] then value else Fold(ds[1..], 16 * value + ds[0])
  }

  /** Digits as text; of 32 digits, hyphens stand after 8, 12, 16 and 20. */
  function Text(ds: seq<Hex>): string {
    if ds == [] then ""
    else
      var tail := [HexDigit(ds[0])] + Text(ds[1..]);
      if HyphenBefore(|ds|) then "-" + tail else tail
  }

  predicate HyphenBefore(n: nat) {
    n == 24 || n == 20 || n == 16 || n == 12
  }

  /** How the database prints a row's id. */
  function Print(id: nat): string {
    Text(Digits(id, 32))
  }

  /** Reading n more digits; a hyphen is allowed, and not required, after any group of four. */
  function Read(text: string, n: nat, value: nat): Option<nat> {
    if n == 0 then if text == "" then Some(value) else None
    else
      var rest := Rest(text, n);
      if rest == "" || HexValue(rest[0]).None? then None
      else Read(rest[1..], n - 1, 16 * value + HexValue(rest[0]).value)
  }

  /** The row a spelling denotes, if it is one; braces around the digits are allowed. */
  function Parse(text: string): Option<nat> {
    if |text| >= 2 && text[0] == '{' && text[|text| - 1] == '}' then Read(text[1..|text| - 1], 32, 0)
    else Read(text, 32, 0)
  }

  /** The text from its next digit on, skipping a hyphen if one may stand there. */
  function Rest(text: string, n: nat): string {
    if n % 4 == 0 && n < 32 && text != "" && text[0] == '-' then text[1..] else text
  }

  lemma ReadDigit(text: string, n: nat, value: nat, d: char, tail: string)
    requires n > 0 && Rest(text, n) == [d] + tail && HexValue(d).Some?
    ensures Read(text, n, value) == Read(tail, n - 1, 16 * value + HexValue(d).value)
  {
    assert ([d] + tail)[1..] == tail;
  }

  lemma DigitReads(d: Hex)
    ensures HexValue(HexDigit(d)) == Some(d) && HexDigit(d) != '-' && HexDigit(d) != '{'
  {
  }

  lemma TextDigit(ds: seq<Hex>)
    requires 0 < |ds| <= 32
    ensures Rest(Text(ds), |ds|) == [HexDigit(ds[0])] + Text(ds[1..])
  {
    var d, rest := ds[0], Text(ds[1..]);
    DigitReads(d);
    assert Text(ds) == if HyphenBefore(|ds|) then "-" + ([HexDigit(d)] + rest) else [HexDigit(d)] + rest;
    hide *;
    SkipHyphen(HexDigit(d), rest, |ds|);
  }

  lemma SkipHyphen(d: char, rest: string, n: nat)
    requires d != '-'
    ensures Rest([d] + rest, n) == [d] + rest
    ensures HyphenBefore(n) ==> Rest("-" + ([d] + rest), n) == [d] + rest
  {
    assert ("-" + ([d] + rest))[1..] == [d] + rest;
  }

  lemma {:induction false} ReadText(ds: seq<Hex>, value: nat)
    requires |ds| <= 32
    ensures Read(Text(ds), |ds|, value) == Some(Fold(ds, value))
  {
    if ds != [] {
      assert Fold(ds, value) == Fold(ds[1..], 16 * value + ds[0]);
      hide *;
      TextDigit(ds);
      DigitReads(ds[0]);
      ReadDigit(Text(ds), |ds|, value, HexDigit(ds[0]), Text(ds[1..]));
      ReadText(ds[1..], 16 * value + ds[0]);
    }
  }

  lemma {:induction false} FoldAppend(ds: seq<Hex>, d: Hex, value: nat)
    ensures Fold(ds + [d], value) == 16 * Fold(ds, value) + d
  {
    if ds != [] {
      assert (ds + [d])[1..] == ds[1..] + [d];
      FoldAppend(ds[1..], d, 16 * value + ds[0]);
    }
  }

  lemma {:induction false} FoldDigits(id: nat, n: nat)
    requires id < Pow16(n)
    ensures Fold(Digits(id, n), 0) == id
  {
    if n > 0 {
      FoldDigits(id / 16, n - 1);
      FoldAppend(Digits(id / 16, n - 1), id % 16, 0);
    }
  }

  lemma StartsWithDigit(id: nat)
    ensures var ds := Digits(id, 32);
            Print(id) == [HexDigit(ds[0])] + Text(ds[1..])
  {
    hide Digits, HexDigit;
  }

  /** A printed id denotes its row. */
  lemma ParsePrinted(id: nat)
    requires id < Pow16(32)
    ensures Parse(Print(id)) == Some(id)
  {
    FoldDigits(id, 32);
    StartsWithDigit(id);
    hide Text, Pow16, Read, HexDigit, Digits, Fold;
    ReadText(Digits(id, 32), 0);
    DigitReads(Digits(id, 32)[0]);
  }

  /** So does the printed id in braces. */
  lemma ParseBraced(id: nat)
    requires id < Pow16(32)
    ensures Parse("{" + Print(id) + "}") == Some(id)
  {
    FoldDigits(id, 32);
    hide Text, Pow16, Read, HexDigit, Digits, Fold;
    ReadText(Digits(id, 32), 0);
    var text := "{" + Print(id) + "}";
    assert text[1..|text| - 1] == Print(id);
  }

  function Hyphens(n: nat): nat {
    (if n >= 12 then 1 else 0) + (if n >= 16 then 1 else 0) + (if n >= 20 then 1 else 0) + (if n >= 24 then 1 else 0)
  }

  lemma {:induction false} Layout(ds: seq<Hex>)
    requires |ds| <= 32
    ensures |Text(ds)| == |ds| + Hyphens(|ds|)
    ensures forall i :: 0 <= i < |Text(ds)| ==> (Text(ds)[i] == '-' <==> |Text(ds)| - i in {13, 18, 23, 28})
  {
    if ds != [] {
      Layout(ds[1..]);
      DigitReads(ds[0]);
      var tail := [HexDigit(ds[0])] + Text(ds[1..]);
      assert Text(ds) == if HyphenBefore(|ds|) then "-" + tail else tail;
      hide Text, HexDigit, HexValue;
      assert forall i :: 0 <= i < |tail| ==> (tail[i] == '-' <==> |tail| - i in {13, 18, 23, 28});
    }
  }

  /** 36 characters, with the hyphens of the usual five groups. */
  lemma PrintLayout(id: nat)
    ensures |Print(id)| == 36 && forall i :: 0 <= i < 36 ==> (Print(id)[i] == '-' <==> i in {8, 13, 18, 23})
  {
    hide Text, Digits;
    Layout(Digits(id, 32));
  }

  lemma {:induction false} ReadBound(text: string, n: nat, value: nat)
    requires n <= 32 && value < Pow16(32 - n) && Read(text, n, value).Some?
    ensures Read(text, n, value).value < Pow16(32)
  {
    if n > 0 {
      var rest := Rest(text, n);
      var next := 16 * value + HexValue(rest[0]).value;
      assert Read(text, n, value) == Read(rest[1..], n - 1, next);
      hide HexValue, Rest, Read;
      assert next < Pow16(32 - (n - 1));
      hide Pow16;
      ReadBound(rest[1..], n - 1, next);
    }
  }

  lemma ParseBound(text: string)
    requires Parse(text).Some?
    ensures Parse(text).value < Pow16(32)
  {
    assert Pow16(0) == 1;
    hide Pow16, Read;
    if |text| >= 2 && text[0] == '{' && text[|text| - 1] == '}' {
      ReadBound(text[1..|text| - 1], 32, 0);
    } else {
      ReadBound(text, 32, 0);
    }
  }

  // ---- Printed ids sort as their numbers do ----

  /** Go's string comparison. */
  predicate Less(a: string, b: string) {
    b != [] && (a == [] || a[0] < b[0] || (a[0] == b[0] && Less(a[1..], b[1..])))
  }

  /** The first difference decides, and a proper prefix is smaller. */
  lemma {:induction false} LessIs(a: string, b: string) returns (k: nat)
    ensures k <= |a| && k <= |b| && a[..k] == b[..k]
    ensures k < |a| && k < |b| ==> a[k] != b[k]
    ensures Less(a, b) <==> k < |b| && (k == |a| || a[k] < b[k])
  {
    if a == [] || b == [] || a[0] != b[0] {
      k := 0;
    } else {
      var j := LessIs(a[1..], b[1..]);
      k := j + 1;
      assert a[..k] == [a[0]] + a[1..][..j] && b[..k] == [b[0]] + b[1..][..j];
      assert j < |a[1..]| ==> a[1..][j] == a[k];
      assert j < |b[1..]| ==> b[1..][j] == b[k];
    }
  }

  lemma LessCons(c: char, d: char, a: string, b: string)
    ensures Less([c] + a, [d] + b) <==> c < d || (c == d && Less(a, b))
  {
    assert ([c] + a)[1..] == a && ([d] + b)[1..] == b;
  }

  /** The first difference decides. */
  predicate DigitsLess(a: seq<Hex>, b: seq<Hex>)
    requires |a| == |b|
  {
    a != [] && (a[0] < b[0] || (a[0] == b[0] && DigitsLess(a[1..], b[1..])))
  }

  lemma {:induction false} DigitsLessAppend(a: seq<Hex>, b: seq<Hex>, c: Hex, d: Hex)
    requires |a| == |b|
    ensures DigitsLess(a + [c], b + [d]) <==> DigitsLess(a, b) || (a == b && c < d)
  {
    if a != [] {
      assert (a + [c])[1..] == a[1..] + [c] && (b + [d])[1..] == b[1..] + [d];
      DigitsLessAppend(a[1..], b[1..], c, d);
      assert a == [a[0]] + a[1..] && b == [b[0]] + b[1..];
    }
  }

  lemma {:induction false} DigitsOrder(a: nat, b: nat, n: nat)
    requires a < Pow16(n) && b < Pow16(n)
    ensures DigitsLess(Digits(a, n), Digits(b, n)) <==> a < b
  {
    if n > 0 {
      DigitsOrder(a / 16, b / 16, n - 1);
      FoldDigits(a / 16, n - 1);
      FoldDigits(b / 16, n - 1);
      DigitsLessAppend(Digits(a / 16, n - 1), Digits(b / 16, n - 1), a % 16, b % 16);
    }
  }

  lemma HexDigitOrder(d: Hex, e: Hex)
    ensures (HexDigit(d) < HexDigit(e) <==> d < e) && (HexDigit(d) == HexDigit(e) <==> d == e)
  {
  }

  lemma {:induction false} TextOrder(a: seq<Hex>, b: seq<Hex>)
    requires |a| == |b|
    ensures Less(Text(a), Text(b)) <==> DigitsLess(a, b)
  {
    if a != [] {
      TextOrder(a[1..], b[1..]);
      hide Less, HexDigit;
      HexDigitOrder(a[0], b[0]);
      var s, t := Text(a[1..]), Text(b[1..]);
      LessCons(HexDigit(a[0]), HexDigit(b[0]), s, t);
      LessCons('-', '-', [HexDigit(a[0])] + s, [HexDigit(b[0])] + t);
    }
  }

  /** Comparing printed ids as strings is comparing the rows' numbers. */
  lemma PrintOrder(a: nat, b: nat)
    requires a < Pow16(32) && b < Pow16(32)
    ensures Less(Print(a), Print(b)) <==> a < b
  {
    hide Pow16, Less, Digits, Text, DigitsLess;
    DigitsOrder(a, b, 32);
    TextOrder(Digits(a, 32), Digits(b, 32));
  }

  // ---- What the transfer does with two request strings ----

  /** Both strings denote rows; otherwise the first query that uses a malformed one fails. */
  predicate Wellformed(source: string, destination: string) {
    Parse(source).Some? && Parse(destination).Some?
  }

  /** The rows in the order in which they are locked. */
  function LockRows(source: string, destination: string): (nat, nat)
    requires Wellformed(source, destination)
  {
    var firstLock, secondLock := source, destination;
    if Less(secondLock, firstLock) then (Parse(secondLock).value, Parse(firstLock).value)
    else (Parse(firstLock).value, Parse(secondLock).value)
  }

  /** The rows taken for source (debited) and destination (credited): the first row's printed id is compared
      with the source string. */
  function Recognised(source: string, destination: string): (nat, nat)
    requires Wellformed(source, destination)
  {
    var (first, second) := LockRows(source, destination);
    if Spells(first, source) then (first, second) else (second, first)
  }

  predicate Spells(row: nat, text: string) {
    Print(row) == text
  }

  /**
   * The exact outcome of mapping back. Source and destination are told apart correctly exactly when the source
   * is spelled as the database prints it, or sorts after the destination (or both denote one row, which the
   * insert then refuses). In every other case they are exchanged: the row named as destination is debited,
   * while the caller's right to spend was checked on the row named as source.
   */
  lemma RecognisedRight(source: string, destination: string)
    requires Wellformed(source, destination)
    ensures var s, d := Parse(source).value, Parse(destination).value;
            && (Recognised(source, destination) == (s, d) <==> Spells(s, source) || Less(destination, source) || s == d)
            && (Recognised(source, destination) != (s, d) ==> Recognised(source, destination) == (d, s))
  {
    var s, d := Parse(source).value, Parse(destination).value;
    hide Parse, Less, Print, Pow16;
    ParseBound(destination);
    ParsePrinted(d);
  }

  // ---- One lock order ----

  /** The strings compare as the rows' numbers do. */
  predicate InOrder(source: string, destination: string)
    requires Wellformed(source, destination)
  {
    Less(destination, source) <==> Parse(destination).value < Parse(source).value
  }

  /** A transfer between two rows locks in ascending order exactly when its strings compare as the rows do. */
  lemma AscendingIff(source: string, destination: string)
    requires Wellformed(source, destination) && Parse(source) != Parse(destination)
    ensures LockRows(source, destination).0 < LockRows(source, destination).1 <==> InOrder(source, destination)
  {
    hide Parse, Less;
  }

  /** Two transfers over the same two rows, in the same or the opposite direction, lock them in one order
      exactly when both compare as their rows do or neither does. */
  lemma SameOrderIff(source: string, destination: string, source': string, destination': string)
    requires Wellformed(source, destination) && Wellformed(source', destination')
    requires Parse(source) != Parse(destination)
    requires (Parse(source'), Parse(destination')) == (Parse(source), Parse(destination))
             || (Parse(source'), Parse(destination')) == (Parse(destination), Parse(source))
    ensures LockRows(source, destination) == LockRows(source', destination')
            <==> (InOrder(source, destination) <==> InOrder(source', destination'))
  {
    hide Parse, Less;
  }

  /** With printed ids the strings do exactly what the model of a transfer does with the rows' numbers:
      the same lock order, and source and destination told apart. */
  lemma PrintedAsModelled(p: Program)
    requires p.RunTransfer? && p.source < Pow16(32) && p.destination < Pow16(32)
    ensures Parse(Print(p.source)) == Some(p.source) && Parse(Print(p.destination)) == Some(p.destination)
    ensures LockRows(Print(p.source), Print(p.destination)) == (FirstLock(p), SecondLock(p))
    ensures Recognised(Print(p.source), Print(p.destination)) == (p.source, p.destination)
  {
    hide Parse, Print, Less, Pow16;
    ParsePrinted(p.source);
    ParsePrinted(p.destination);
    PrintOrder(p.destination, p.source);
    RecognisedRight(Print(p.source), Print(p.destination));
  }

  // ---- Other spellings of the same rows ----

  /** Ids whose first printed digit is a letter: the upper three eighths of all ids. */
  predicate Lettered(id: nat) {
    10 * Pow16(31) <= id < Pow16(32)
  }

  lemma {:induction false} FirstDigit(id: nat, n: nat)
    requires n > 0 && id < Pow16(n)
    ensures Digits(id, n)[0] >= 10 <==> id >= 10 * Pow16(n - 1)
  {
    if n > 1 {
      FirstDigit(id / 16, n - 1);
    } else {
      assert Pow16(0) == 1;
    }
  }

  /** Such an id, printed, but with that letter in upper case. */
  function Capital(id: nat): string
    requires Lettered(id)
  {
    FirstDigit(id, 32);
    [('A' as int + Digits(id, 32)[0] - 10) as char] + Text(Digits(id, 32)[1..])
  }

  /** Print and Capital differ in the case of one letter. */
  lemma TwoSpellings(id: nat) returns (top: Hex, tail: string)
    requires Lettered(id)
    ensures top >= 10 && Print(id) == [HexDigit(top)] + tail && Capital(id) == [('A' as int + top - 10) as char] + tail
  {
    FirstDigit(id, 32);
    StartsWithDigit(id);
    hide Digits, Text, Print, HexDigit, Pow16;
    top, tail := Digits(id, 32)[0], Text(Digits(id, 32)[1..]);
  }

  lemma CapitalDenotes(id: nat)
    requires Lettered(id)
    ensures Parse(Capital(id)) == Some(id) && !Spells(id, Capital(id))
  {
    ParsePrinted(id);
    hide Lettered, Print, Parse, HexDigit, HexValue, Capital;
    var top, tail := TwoSpellings(id);
    SameDigit(top);
    var c := ('A' as int + top - 10) as char;
    SameParse(c, HexDigit(top), tail);
    assert ([c] + tail)[0] != ([HexDigit(top)] + tail)[0];
  }

  lemma SameParse(c: char, d: char, tail: string)
    requires c != '{' && d != '{' && HexValue(c) == HexValue(d) && HexValue(d).Some?
    requires c != '-' && d != '-'
    ensures Parse([c] + tail) == Parse([d] + tail)
  {
    hide Read;
    ReadDigit([c] + tail, 32, 0, c, tail);
    ReadDigit([d] + tail, 32, 0, d, tail);
  }

  lemma SameDigit(top: Hex)
    requires 10 <= top
    ensures var c := ('A' as int + top - 10) as char;
            HexValue(c) == HexValue(HexDigit(top)) == Some(top) && c != HexDigit(top)
            && c != '{' && c != '-' && HexDigit(top) != '{' && HexDigit(top) != '-'
  {
  }

  /**
   * Both go wrong for any two rows whose printed ids start with a letter: one transfer from a to b as printed
   * and one from b to a with a capital letter lock the two rows in opposite orders, and the second one takes
   * a for its source.
   */
  lemma OppositeOrders(a: nat, b: nat)
    requires Lettered(a) && Lettered(b) && a < b
    ensures Parse(Print(a)) == Some(a) && Parse(Print(b)) == Some(b) && Parse(Capital(b)) == Some(b)
    ensures LockRows(Print(a), Print(b)) == (a, b) && LockRows(Capital(b), Print(a)) == (b, a)
    ensures Recognised(Capital(b), Print(a)) == (a, b)
  {
    assert a < Pow16(32) && b < Pow16(32);
    hide *;
    ParsePrinted(a);
    ParsePrinted(b);
    CapitalDenotes(b);
    CapitalSorts(a, b);
    PrintOrder(b, a);
    Crossed(Print(a), Print(b), Capital(b));
  }

  lemma Crossed(x: string, y: string, z: string)
    requires Parse(x).Some? && Parse(y).Some? && Parse(z) == Parse(y) && Parse(x).value < Parse(y).value
    requires !Less(y, x) && !Less(x, z) && !Spells(Parse(y).value, z)
    ensures LockRows(x, y) == (Parse(x).value, Parse(y).value) && LockRows(z, x) == (Parse(y).value, Parse(x).value)
    ensures Recognised(z, x) == (Parse(x).value, Parse(y).value)
  {
    hide Parse, Less, Spells;
    AscendingIff(x, y);
    SameOrderIff(x, y, z, x);
    RecognisedRight(z, x);
  }

  lemma CapitalSorts(a: nat, b: nat)
    requires Lettered(a) && Lettered(b)
    ensures !Less(Print(a), Capital(b))
  {
    hide Lettered, Print, Capital;
    var s, x := TwoSpellings(a);
    var t, y := TwoSpellings(b);
    var c := ('A' as int + t - 10) as char;
    assert c <= 'F' < 'a' <= HexDigit(s);
    LessCons(HexDigit(s), c, x, y);
  }
}
