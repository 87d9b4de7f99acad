/**
  The excluded groups of a ride, stored as one comma-joined column and parsed back
  into a list by the ride service, by the lock monitor and, through a queue message,
  by the auction.

  The identifiers joined here are the free-text `serviceId` of a PATCH or the holder
  of an expired lock, so nothing in this module assumes that they are comma-free.
*/
module ExclusionList {
  import opened Sequences
  import opened Wrappers

  /** An identifier that survives a trip through the column. */
  ghost predicate PlainId(id: string) {
    id != "" && ',' !in id
  }

  /** `text.split(",")`: always at least one field. */
  function Split(text: string): (fields: seq<string>)
    ensures |fields| >= 1
  {
    if text == "" then [""]
    else
      var rest := Split(text[1..]);
      if text[0] == ',' then [""] + rest
      else [[text[0]] + rest[0]] + rest[1..]
  }

  /** The comprehension `[g for g in fields if g]`. */
  function NonEmpty(fields: seq<string>): seq<string> {
    if fields == [] then []
    else (if fields[0] == "" then [] else [fields[0]]) + NonEmpty(fields[1..])
  }

  function ParseText(text: string): seq<string> {
    NonEmpty(Split(text))
  }

  /** `_parse_excluded`: a missing or empty column is the empty list. */
  function Parse(raw: Option<string>): seq<string> {
    match raw
    case None => []
    case Some(text) => if text == "" then [] else ParseText(text)
  }

  /** `",".join(ids)`. */
  function Join(ids: seq<string>): string {
    if ids == [] then ""
    else if |ids| == 1 then ids[0]
    else ids[0] + "," + Join(ids[1..])
  }

  /** What each identifier contributes when it is parsed on its own. */
  function Flatten(ids: seq<string>): seq<string> {
    if ids == [] then [] else ParseText(ids[0]) + Flatten(ids[1..])
  }

  // ---- What parsing yields -------------------------------------------------

  ghost predicate AllPlain(ids: seq<string>) {
    forall id <- ids :: PlainId(id)
  }

  lemma {:induction false} SplitFields(text: string)
    ensures forall f <- Split(text) :: ',' !in f
  {
    if text != "" {
      SplitFields(text[1..]);
    }
  }

  lemma {:induction false} NonEmptyFields(fields: seq<string>)
    requires forall f <- fields :: ',' !in f
    ensures AllPlain(NonEmpty(fields))
  {
    if fields != [] {
      NonEmptyFields(fields[1..]);
    }
  }

  /** Every parsed identifier is non-empty and free of commas. */
  lemma ParsedIsPlain(raw: Option<string>)
    ensures AllPlain(Parse(raw))
  {
    if raw.Some? {
      ParsedTextIsPlain(raw.value);
    }
  }

  lemma ParsedTextIsPlain(text: string)
    ensures AllPlain(ParseText(text))
  {
    SplitFields(text);
    NonEmptyFields(Split(text));
  }

  // ---- Parsing a join -----------------------------------------------------

  lemma {:induction false} NonEmptyConcat(xs: seq<string>, ys: seq<string>)
    ensures NonEmpty(xs + ys) == NonEmpty(xs) + NonEmpty(ys)
  {
    if xs == [] {
      assert xs + ys == ys;
    } else {
      NonEmptyConcat(xs[1..], ys);
      var head := if xs[0] == "" then [] else [xs[0]];
      assert (xs + ys)[0] == xs[0] && (xs + ys)[1..] == xs[1..] + ys;
      ConcatAssociative(head, NonEmpty(xs[1..]), NonEmpty(ys));
    }
  }

  /** One character in front of a text. */
  lemma SplitStep(c: char, text: string)
    ensures Split([c] + text) ==
            if c == ',' then [""] + Split(text) else [[c] + Split(text)[0]] + Split(text)[1..]
  {
    assert ([c] + text)[0] == c && ([c] + text)[1..] == text;
  }

  lemma FirstFieldGrows(c: char, head: seq<string>, tail: seq<string>)
    requires head != []
    ensures [[c] + (head + tail)[0]] + (head + tail)[1..] == ([[c] + head[0]] + head[1..]) + tail
  {
    assert (head + tail)[1..] == head[1..] + tail;
  }

  lemma {:induction false} SplitAtComma(a: string, b: string)
    ensures Split(a + "," + b) == Split(a) + Split(b)
  {
    if a == "" {
      assert a + "," + b == [','] + b;
      SplitStep(',', b);
    } else {
      assert a == [a[0]] + a[1..] && a + "," + b == [a[0]] + (a[1..] + "," + b);
      SplitAtComma(a[1..], b);
      SplitStep(a[0], a[1..]);
      SplitStep(a[0], a[1..] + "," + b);
      ConcatAssociative([""], Split(a[1..]), Split(b));
      FirstFieldGrows(a[0], Split(a[1..]), Split(b));
    }
  }

  lemma ParseTextAtComma(a: string, b: string)
    ensures ParseText(a + "," + b) == ParseText(a) + ParseText(b)
  {
    SplitAtComma(a, b);
    NonEmptyConcat(Split(a), Split(b));
  }

  lemma ParseEmpty()
    ensures ParseText("") == []
  {
    assert Split("") == [""];
    assert [""][1..] == [];
  }

  /** A column that was never written, or is empty, reads back as no groups at all. */
  lemma ParseMissing(text: string)
    ensures Parse(None) == [] && Parse(Some("")) == []
    ensures Parse(Some(text)) == ParseText(text)
  {
    ParseEmpty();
  }

  /** Parsing a join parses each identifier on its own, whatever the identifiers are. */
  lemma {:induction false} ParseJoin(ids: seq<string>)
    ensures ParseText(Join(ids)) == Flatten(ids)
  {
    if ids == [] {
      ParseEmpty();
    } else if |ids| == 1 {
      assert Flatten(ids) == ParseText(ids[0]) + Flatten([]);
    } else {
      ParseTextAtComma(ids[0], Join(ids[1..]));
      ParseJoin(ids[1..]);
    }
  }

  lemma {:induction false} SplitPlain(text: string)
    requires ',' !in text
    ensures Split(text) == [text]
  {
    if text != "" {
      SplitPlain(text[1..]);
      assert [text[0]] + text[1..] == text;
    }
  }

  lemma {:induction false} ParsePlain(id: string)
    requires PlainId(id)
    ensures ParseText(id) == [id]
  {
    SplitPlain(id);
    assert NonEmpty([id]) == [id] + NonEmpty([]);
  }

  lemma FlattenStep(id: string, ids: seq<string>)
    ensures Flatten([id] + ids) == ParseText(id) + Flatten(ids)
  {
    assert ([id] + ids)[1..] == ids;
  }

  lemma {:induction false} FlattenConcat(xs: seq<string>, ys: seq<string>)
    ensures Flatten(xs + ys) == Flatten(xs) + Flatten(ys)
  {
    if xs == [] {
      assert xs + ys == ys;
    } else {
      assert xs == [xs[0]] + xs[1..] && xs + ys == [xs[0]] + (xs[1..] + ys);
      FlattenConcat(xs[1..], ys);
      FlattenStep(xs[0], xs[1..]);
      FlattenStep(xs[0], xs[1..] + ys);
      ConcatAssociative(ParseText(xs[0]), Flatten(xs[1..]), Flatten(ys));
    }
  }

  lemma {:induction false} FlattenPlain(ids: seq<string>)
    requires AllPlain(ids)
    ensures Flatten(ids) == ids
  {
    if ids != [] {
      ParsePlain(ids[0]);
      FlattenPlain(ids[1..]);
    }
  }

  // ---- Main results -------------------------------------------------------

  /** The column gives back the list that was joined exactly when every identifier is
      non-empty and free of commas. */
  lemma RoundTrip(ids: seq<string>)
    ensures ParseText(Join(ids)) == ids <==> AllPlain(ids)
  {
    ParseJoin(ids);
    if AllPlain(ids) {
      FlattenPlain(ids);
    } else if ParseText(Join(ids)) == ids {
      ParsedTextIsPlain(Join(ids));
    }
  }

  /** Once parsed, a list is stable: parse, join, parse is parse. */
  lemma ParseJoinParse(text: string)
    ensures ParseText(Join(ParseText(text))) == ParseText(text)
  {
    ParsedTextIsPlain(text);
    RoundTrip(ParseText(text));
  }

  lemma ParseSomeJoin(ids: seq<string>)
    ensures Parse(Some(Join(ids))) == Flatten(ids)
  {
    ParseJoin(ids);
    ParseEmpty();
  }

  /** Appending one holder and storing the join extends the stored list by what that
      holder parses to: itself when it is plain, possibly several names when not. */
  lemma AppendStored(raw: Option<string>, id: string)
    ensures Parse(Some(Join(Parse(raw) + [id]))) == Parse(raw) + ParseText(id)
    ensures PlainId(id) ==> Parse(Some(Join(Parse(raw) + [id]))) == Parse(raw) + [id]
  {
    ParseSomeJoin(Parse(raw) + [id]);
    FlattenConcat(Parse(raw), [id]);
    ParsedIsPlain(raw);
    FlattenPlain(Parse(raw));
    assert Flatten([id]) == ParseText(id) + Flatten([]);
    if PlainId(id) {
      ParsePlain(id);
    }
  }

  /** The list sent in the queue message and the list read back from the column are the
      same list exactly when the appended identifier is plain. */
  lemma MessageMatchesColumn(raw: Option<string>, id: string)
    ensures Parse(Some(Join(Parse(raw) + [id]))) == Parse(raw) + [id] <==> PlainId(id)
  {
    AppendStored(raw, id);
    if !PlainId(id) {
      ParsedIsPlain(Some(Join(Parse(raw) + [id])));
      assert id in Parse(raw) + [id];
    }
  }
}
