/** The comma-separated list fields of the rule and feed forms: the text a user types is
    read with `split(',')`, `map(s => s.trim())`, `filter(s => s.length > 0)`, and a
    stored list is shown again with `join(', ')`. */
module CommaList {
  import opened Js
  import opened Text
  import opened Seqs

  /** The trimmed piece, if it is not blank. */
  function CleanPiece(piece: string): Option<string>
  {
    var t := Trim(piece);
    if |t| > 0 then Some(t) else None
  }

  /** The list a comma-separated text stands for. */
  function Parse(text: string): seq<string>
  {
    Keep(SplitOn(text, ','), CleanPiece)
  }

  /** A list as the form shows it: the items joined with `", "`. */
  function Format(items: seq<string>): string
  {
    Join(items, ", ")
  }

  /** An item the parse can produce: non-empty, no white space at either end, no comma. */
  predicate Clean(item: string)
  {
    Trimmed(item) && ',' !in item
  }

  /** Every parsed item is clean. */
  lemma ParseItemsClean(text: string)
    ensures forall i :: 0 <= i < |Parse(text)| ==> Clean(Parse(text)[i])
  {
    var parts := SplitOn(text, ',');
    forall i | 0 <= i < |Parse(text)| ensures Clean(Parse(text)[i]) {
      var item := Parse(text)[i];
      assert item in Parse(text);
      KeepMember(parts, CleanPiece, item);
      var k :| 0 <= k < |parts| && CleanPiece(parts[k]) == Some(item);
      TrimShape(parts[k]);
    }
  }

  /** Items come out in input order: the parse of `a,b` is the parse of `a` followed by
      the parse of `b`. */
  lemma ParseConcat(a: string, b: string)
    ensures Parse(a + "," + b) == Parse(a) + Parse(b)
  {
    SplitOnConcat(a, b, ',');
    KeepAppend(SplitOn(a, ','), SplitOn(b, ','), CleanPiece);
  }

  /** A text without a comma is one item, its trimmed self, unless it is blank. */
  lemma ParseWithoutComma(s: string)
    requires ',' !in s
    ensures Parse(s) == if Trim(s) == "" then [] else [Trim(s)]
  {
    SplitOnWithoutSep(s, ',');
    assert Keep([s], CleanPiece) == Keep([], CleanPiece) + Emitted(CleanPiece(s));
  }

  /** A space in front of the text does not change its parse. */
  lemma ParseSkipsLeadingSpace(s: string)
    ensures Parse(" " + s) == Parse(s)
  {
    var t := [' '] + s;
    assert t[0] == ' ' && t[1..] == s;
    var parts := SplitOn(s, ',');
    var first, more := parts[0], parts[1..];
    assert parts == [first] + more;
    assert SplitOn(t, ',') == [[' '] + first] + more;
    TrimSkipsLeadingSpace(' ', first);
    assert CleanPiece([' '] + first) == CleanPiece(first);
    KeepAppend([[' '] + first], more, CleanPiece);
    KeepAppend([first], more, CleanPiece);
    KeepSnoc([], [' '] + first, CleanPiece);
    KeepSnoc([], first, CleanPiece);
    assert [] + [[' '] + first] == [[' '] + first];
    assert [] + [first] == [first];
  }

  /** Round trip: showing a list of clean items and reading the text back gives the same
      list. */
  lemma {:induction false} ParseFormat(xs: seq<string>)
    requires forall i :: 0 <= i < |xs| ==> Clean(xs[i])
    ensures Parse(Format(xs)) == xs
    decreases |xs|
  {
    if |xs| == 0 {
      ParseFormatEmpty();
    } else if |xs| == 1 {
      ParseFormatSingle(xs);
    } else {
      ParseFormat(xs[1..]);
      ParseFormatCons(xs);
    }
  }

  /** No items show as the empty text, which reads back as no items. */
  lemma ParseFormatEmpty()
    ensures Parse(Format([])) == []
  {
    assert Parse("") == Keep([""], CleanPiece);
    assert Keep([""], CleanPiece) == Keep([], CleanPiece) + Emitted(CleanPiece(""));
  }

  /** One clean item shows as itself and reads back as itself. */
  lemma ParseFormatSingle(xs: seq<string>)
    requires |xs| == 1 && Clean(xs[0])
    ensures Parse(Format(xs)) == xs
  {
    ParseWithoutComma(xs[0]);
    TrimOfTrimmed(xs[0]);
  }

  /** The step of the round trip: a clean item in front of a list that reads back. */
  lemma ParseFormatCons(xs: seq<string>)
    requires |xs| >= 2 && Clean(xs[0])
    requires Parse(Format(xs[1..])) == xs[1..]
    ensures Parse(Format(xs)) == xs
  {
    var x, rest := xs[0], Format(xs[1..]);
    FormatCons(xs);
    ParseConcat(x, " " + rest);
    ParseWithoutComma(x);
    TrimOfTrimmed(x);
    ParseSkipsLeadingSpace(rest);
    assert xs == [x] + xs[1..];
  }

  /** Showing a longer list: the first item, the comma, a space and the rest. */
  lemma FormatCons(xs: seq<string>)
    requires |xs| >= 2
    ensures Format(xs) == xs[0] + "," + (" " + Format(xs[1..]))
  {
    assert Format(xs) == xs[0] + ", " + Format(xs[1..]);
  }

  /** `v?.join(', ') || ''` on a stored list value: `None` when it throws, because the
      value is neither nullish nor an array. */
  function JoinedOrEmpty(v: JsValue): (r: Option<string>)
    ensures (v.Undefined? || v.Null?) ==> r == Some("")
    ensures v.StrList? ==> r == Some(Format(v.items))
    ensures r.None? <==> !(v.Undefined? || v.Null? || v.StrList?)
  {
    match v
    case Undefined => Some("")
    case Null => Some("")
    case StrList(items) => Some(Format(items))
    case _ => None
  }

  /** `list?.join(', ') || ''` on an optional list. */
  function FormatOrEmpty(list: Option<seq<string>>): (r: string)
    ensures list.None? ==> r == ""
    ensures list.Some? ==> r == Format(list.value)
  {
    if list.Some? then Format(list.value) else ""
  }
}
