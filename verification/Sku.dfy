/** Human SKUs: normalizing segments, printing them joined by underscores, and parsing them back. */
module Sku {
  import opened Common
  import opened Text

  /** The Unicode tables the code consults, rune by rune: upper-casing, and letters or digits. */
  datatype Tables = Tables(upper: char -> char, alnum: char -> bool)

  predicate CodeChar(c: char) {
    'A' <= c <= 'Z' || '0' <= c <= '9'
  }

  /** What the proofs need of the tables: they are right about upper-case ASCII codes and the underscore. */
  ghost predicate Sane(t: Tables) {
    (forall c :: CodeChar(c) ==> t.upper(c) == c && t.alnum(c)) && !t.alnum('_')
  }

  datatype Parts = Parts(brand: string, style: string, color: string, edition: string, size: string)

  datatype Invalid = BadBrand | BadStyle | BadColor | BadEdition | BadSize | EmptySku | WrongSegmentCount

  // ------------------------------------------------------------ normalization

  function Keep(ok: char -> bool, s: string): string {
    if s == "" then "" else Keep(ok, s[..|s| - 1]) + if ok(s[|s| - 1]) then [s[|s| - 1]] else ""
  }

  function Normalized(t: Tables, value: string): string {
    Keep(t.alnum, MapRunes(t.upper, TrimSpace(value)))
  }

  method NormalizeCode(t: Tables, value: string) returns (code: string)
    ensures code == Normalized(t, value)
  {
    var runes := MapRunes(t.upper, TrimSpace(value));
    code := "";
    for i := 0 to |runes|
      invariant code == Keep(t.alnum, runes[..i])
    {
      assert runes[..i + 1][..i] == runes[..i];
      if t.alnum(runes[i]) {
        code := code + [runes[i]];
      }
    }
    assert runes[..|runes|] == runes;
  }

  lemma {:induction false} KeepAll(ok: char -> bool, s: string)
    requires forall i :: 0 <= i < |s| ==> ok(s[i])
    ensures Keep(ok, s) == s
  {
    if s != "" {
      KeepAll(ok, s[..|s| - 1]);
    }
  }

  /** The kept characters stand at increasing old positions, and every one that is to be kept is. */
  lemma {:induction false} KeepsInOrder(ok: char -> bool, s: string) returns (at: seq<nat>)
    ensures |at| == |Keep(ok, s)|
    ensures forall k :: 0 <= k < |at| ==> at[k] < |s| && Keep(ok, s)[k] == s[at[k]] && ok(s[at[k]])
    ensures forall j, k :: 0 <= j < k < |at| ==> at[j] < at[k]
    ensures forall i :: 0 <= i < |s| && ok(s[i]) ==> i in at
  {
    if s == "" {
      at := [];
    } else {
      at := KeepsInOrder(ok, s[..|s| - 1]);
      if ok(s[|s| - 1]) {
        at := at + [|s| - 1];
      }
    }
  }

  /**
   * A code is what is left of its text, trimmed and in upper case, once everything but letters and digits is
   * struck out: each of them is kept, in its place among the others.
   */
  lemma NormalFormsKeepTheRest(t: Tables, value: string) returns (at: seq<nat>)
    ensures var text, code := TrimSpace(value), Normalized(t, value);
      && |at| == |code| && (forall k :: 0 <= k < |at| ==> at[k] < |text| && code[k] == t.upper(text[at[k]]))
      && (forall j, k :: 0 <= j < k < |at| ==> at[j] < at[k])
      && forall i :: 0 <= i < |text| ==> (i in at <==> t.alnum(t.upper(text[i])))
  {
    at := KeepsInOrder(t.alnum, MapRunes(t.upper, TrimSpace(value)));
  }

  lemma {:induction false} KeepsOnly(ok: char -> bool, s: string)
    ensures forall c :: c in Keep(ok, s) ==> ok(c)
  {
    if s != "" {
      KeepsOnly(ok, s[..|s| - 1]);
    }
  }

  /** A code of upper-case ASCII letters and digits is its own normal form. */
  lemma CodesAreNormal(t: Tables, s: string)
    requires Sane(t) && forall i :: 0 <= i < |s| ==> CodeChar(s[i])
    ensures Normalized(t, s) == s
  {
    TrimSpaceTrims(s);
    assert MapRunes(t.upper, s) == s;
    KeepAll(t.alnum, s);
  }

  /** Normalizing keeps letters and digits only: neither blanks the table rejects nor the separator survive. */
  lemma NormalFormsAreAlnum(t: Tables, value: string)
    ensures forall c :: c in Normalized(t, value) ==> t.alnum(c)
  {
    KeepsOnly(t.alnum, MapRunes(t.upper, TrimSpace(value)));
  }

  function NormalizedParts(t: Tables, p: Parts): Parts {
    Parts(Normalized(t, p.brand), Normalized(t, p.style), Normalized(t, p.color),
          Normalized(t, p.edition), Normalized(t, p.size))
  }

  // --------------------------------------------------------------- validation

  predicate ValidBrandCode(s: string) {
    2 <= |s| <= 3 && forall i :: 0 <= i < |s| ==> 'A' <= s[i] <= 'Z'
  }

  predicate ValidSegmentCode(s: string) {
    1 <= |s| <= 12 && forall i :: 0 <= i < |s| ==> CodeChar(s[i])
  }

  function ValidateSkuParts(p: Parts): Option<Invalid> {
    if !ValidBrandCode(p.brand) then Some(BadBrand)
    else if !ValidSegmentCode(p.style) then Some(BadStyle)
    else if !ValidSegmentCode(p.color) then Some(BadColor)
    else if p.edition != "" && !ValidSegmentCode(p.edition) then Some(BadEdition)
    else if !ValidSegmentCode(p.size) then Some(BadSize)
    else None
  }

  // ------------------------------------------------------- printing and parsing

  function Join(parts: seq<string>): string {
    if parts == [] then "" else if |parts| == 1 then parts[0] else parts[0] + "_" + Join(parts[1..])
  }

  function Split(s: string): (parts: seq<string>)
    ensures parts != []
  {
    if s == "" then [""]
    else if s[0] == '_' then [""] + Split(s[1..])
    else
      var rest := Split(s[1..]);
      [[s[0]] + rest[0]] + rest[1..]
  }

  function Segments(p: Parts): seq<string> {
    [p.brand, p.style, p.color] + (if p.edition != "" then [p.edition] else []) + [p.size]
  }

  function BuildSku(t: Tables, parts: Parts): Result<string, Invalid> {
    var p := NormalizedParts(t, parts);
    match ValidateSkuParts(p)
    case Some(e) => Err(e)
    case None => Ok(Join(Segments(p)))
  }

  function ParseSku(text: string): Result<Parts, Invalid> {
    var sku := TrimSpace(text);
    if sku == "" then Err(EmptySku)
    else
      var segs := Split(sku);
      if |segs| == 4 then Validated(Parts(segs[0], segs[1], segs[2], "", segs[3]))
      else if |segs| == 5 then Validated(Parts(segs[0], segs[1], segs[2], segs[3], segs[4]))
      else Err(WrongSegmentCount)
  }

  function Validated(p: Parts): Result<Parts, Invalid> {
    match ValidateSkuParts(p)
    case Some(e) => Err(e)
    case None => Ok(p)
  }

  predicate AllCodeChars(s: string) {
    forall i :: 0 <= i < |s| ==> CodeChar(s[i])
  }

  /** Which parts print, and that they print in order, joined by underscores, the edition only when there is one. */
  lemma WhatPrints(t: Tables, parts: Parts)
    ensures var p, r := NormalizedParts(t, parts), BuildSku(t, parts);
      && (r.Ok? <==> 2 <= |p.brand| <= 3 && (forall i :: 0 <= i < |p.brand| ==> 'A' <= p.brand[i] <= 'Z')
                     && 1 <= |p.style| <= 12 && 1 <= |p.color| <= 12 && |p.edition| <= 12 && 1 <= |p.size| <= 12
                     && AllCodeChars(p.style + p.color + p.edition + p.size))
      && (r.Ok? ==> r.value == p.brand + "_" + p.style + "_" + p.color + "_"
                               + (if p.edition == "" then "" else p.edition + "_") + p.size)
  {
    var p := NormalizedParts(t, parts);
    CodesJoin(p.style, p.color, p.edition, p.size);
    PartsJoin(p);
    hide Normalized, Join, Segments;
  }

  lemma CodesJoin(a: string, b: string, c: string, d: string)
    ensures AllCodeChars(a + b + c + d) <==> AllCodeChars(a) && AllCodeChars(b) && AllCodeChars(c) && AllCodeChars(d)
  {
    TwoCodesJoin(a + b + c, d);
    TwoCodesJoin(a + b, c);
    TwoCodesJoin(a, b);
    hide AllCodeChars;
  }

  lemma TwoCodesJoin(a: string, b: string)
    ensures AllCodeChars(a + b) <==> AllCodeChars(a) && AllCodeChars(b)
  {
    if AllCodeChars(a + b) {
      assert forall i :: 0 <= i < |a| ==> a[i] == (a + b)[i];
      assert forall i :: 0 <= i < |b| ==> b[i] == (a + b)[|a| + i];
    }
  }

  lemma PartsJoin(p: Parts)
    ensures Join(Segments(p)) == p.brand + "_" + p.style + "_" + p.color + "_"
                                 + (if p.edition == "" then "" else p.edition + "_") + p.size
  {
    var segs := Segments(p);
    var tail := segs[3..];
    assert segs[1..][1..] == segs[2..] && segs[2..][1..] == tail;
    assert Join(segs[2..]) == p.color + "_" + Join(tail);
    assert Join(segs[1..]) == p.style + "_" + (p.color + "_" + Join(tail));
    assert Join(segs) == p.brand + "_" + (p.style + "_" + (p.color + "_" + Join(tail)));
    if p.edition == "" {
      assert tail == [p.size];
    } else {
      assert tail == [p.edition, p.size] && tail[1..] == [p.size];
      assert Join(tail) == p.edition + "_" + p.size;
    }
  }

  lemma {:induction false} JoinSplit(s: string)
    ensures Join(Split(s)) == s
  {
    if s != "" {
      JoinSplit(s[1..]);
      var rest := Split(s[1..]);
      assert s == [s[0]] + s[1..];
      if s[0] == '_' {
        assert ([""] + rest)[1..] == rest;
      } else {
        var parts := [[s[0]] + rest[0]] + rest[1..];
        assert parts[1..] == rest[1..];
        assert |rest| > 1 ==> [s[0]] + (rest[0] + "_" + Join(rest[1..])) == parts[0] + "_" + Join(rest[1..]);
      }
    }
  }

  lemma {:induction false} SplitPlain(s: string)
    requires '_' !in s
    ensures Split(s) == [s]
  {
    if s != "" {
      assert '_' !in s[1..];
      SplitPlain(s[1..]);
      assert s == [s[0]] + s[1..];
    }
  }

  lemma {:induction false} SplitFirst(a: string, rest: string)
    requires '_' !in a
    ensures Split(a + "_" + rest) == [a] + Split(rest)
  {
    var s := a + "_" + rest;
    if a == "" {
      assert s[1..] == rest;
    } else {
      assert '_' !in a[1..];
      SplitFirst(a[1..], rest);
      assert s[1..] == a[1..] + "_" + rest;
      assert a == [a[0]] + a[1..];
    }
  }

  lemma {:induction false} SplitJoin(parts: seq<string>)
    requires parts != [] && forall i :: 0 <= i < |parts| ==> '_' !in parts[i]
    ensures Split(Join(parts)) == parts
  {
    if |parts| == 1 {
      SplitPlain(parts[0]);
    } else {
      SplitJoin(parts[1..]);
      SplitFirst(parts[0], Join(parts[1..]));
    }
  }

  // -------------------------------------------------------------- round trips

  lemma CodesHaveNoBlanks(s: string)
    requires forall i :: 0 <= i < |s| ==> CodeChar(s[i])
    ensures '_' !in s && forall i :: 0 <= i < |s| ==> !IsSpace(s[i])
  {
  }

  lemma {:induction false} JoinEnds(parts: seq<string>)
    requires parts != [] && forall i :: 0 <= i < |parts| ==> parts[i] != ""
    ensures var s, last := Join(parts), parts[|parts| - 1];
      s != "" && s[0] == parts[0][0] && s[|s| - 1] == last[|last| - 1]
  {
    if |parts| > 1 {
      JoinEnds(parts[1..]);
    }
  }

  /** Printing joins non-empty codes, which neither trimming nor splitting can damage. */
  lemma JoinedCodesSurvive(parts: seq<string>)
    requires parts != [] && forall i :: 0 <= i < |parts| ==> ValidSegmentCode(parts[i])
    ensures TrimSpace(Join(parts)) == Join(parts) != "" && Split(Join(parts)) == parts
  {
    forall i | 0 <= i < |parts| ensures '_' !in parts[i] {
      CodesHaveNoBlanks(parts[i]);
    }
    SplitJoin(parts);
    JoinEnds(parts);
    CodesHaveNoBlanks(parts[0]);
    CodesHaveNoBlanks(parts[|parts| - 1]);
    TrimSpaceTrims(Join(parts));
  }

  lemma ValidSegments(p: Parts)
    requires ValidateSkuParts(p) == None
    ensures Segments(p) != [] && forall i :: 0 <= i < |Segments(p)| ==> ValidSegmentCode(Segments(p)[i])
  {
    assert ValidSegmentCode(p.brand);
  }

  /** Whatever prints parses back to the segment-wise normal form. */
  lemma BuildThenParse(t: Tables, p: Parts)
    requires BuildSku(t, p).Ok?
    ensures ParseSku(BuildSku(t, p).value) == Ok(NormalizedParts(t, p))
  {
    var q := NormalizedParts(t, p);
    ValidSegments(q);
    JoinedCodesSurvive(Segments(q));
    hide Join, Split, TrimSpace, Normalized;
  }

  /** Two printable inputs share a SKU exactly when they normalize to the same segments. */
  lemma SkusAreUnambiguous(t: Tables, p: Parts, q: Parts)
    requires BuildSku(t, p).Ok? && BuildSku(t, q).Ok?
    ensures BuildSku(t, p) == BuildSku(t, q) <==> NormalizedParts(t, p) == NormalizedParts(t, q)
  {
    BuildThenParse(t, p);
    BuildThenParse(t, q);
  }

  /** Valid parts print, and print as themselves. */
  lemma ValidPartsPrint(t: Tables, p: Parts)
    requires Sane(t) && ValidateSkuParts(p) == None
    ensures NormalizedParts(t, p) == p && BuildSku(t, p) == Ok(Join(Segments(p)))
  {
    CodesAreNormal(t, p.brand);
    CodesAreNormal(t, p.style);
    CodesAreNormal(t, p.color);
    CodesAreNormal(t, p.edition);
    CodesAreNormal(t, p.size);
  }

  /** A fifth segment is there, and it is empty: the one text that parses but does not print back. */
  predicate BlankEdition(text: string) {
    var segs := Split(TrimSpace(text));
    |segs| == 5 && segs[3] == ""
  }

  lemma ParsedSegments(text: string)
    requires ParseSku(text).Ok?
    ensures var p, segs := ParseSku(text).value, Split(TrimSpace(text));
      && ValidateSkuParts(p) == None
      && Segments(p) == if BlankEdition(text) then [segs[0], segs[1], segs[2], segs[4]] else segs
  {
    hide Split, TrimSpace, ValidBrandCode, ValidSegmentCode;
    var p, segs := ParseSku(text).value, Split(TrimSpace(text));
    if |segs| == 4 {
      assert Segments(p) == segs;
    } else {
      assert segs == [segs[0], segs[1], segs[2], segs[3], segs[4]];
    }
  }

  /** What parses prints again, and prints as the trimmed text exactly when it has no blank edition segment. */
  lemma ParseThenBuild(t: Tables, text: string)
    requires Sane(t) && ParseSku(text).Ok?
    ensures BuildSku(t, ParseSku(text).value).Ok?
    ensures BuildSku(t, ParseSku(text).value) == Ok(TrimSpace(text)) <==> !BlankEdition(text)
  {
    hide Split, TrimSpace, Join, Sane, ValidateSkuParts, Segments, BuildSku;
    var p := ParseSku(text).value;
    ParsedSegments(text);
    ValidPartsPrint(t, p);
    JoinSplit(TrimSpace(text));
    ValidSegments(p);
    hide ParseSku;
    JoinedCodesSurvive(Segments(p));
  }

  /** The exception is real: every code without an edition has a spelling that parses but prints shorter. */
  lemma BlankEditionLosesASeparator(t: Tables, p: Parts)
    requires Sane(t) && ValidateSkuParts(p) == None && p.edition == ""
    ensures var text := p.brand + "_" + p.style + "_" + p.color + "__" + p.size;
      ParseSku(text) == Ok(p) && BuildSku(t, p).Ok? && BuildSku(t, p).value != text
  {
    var text := p.brand + "_" + p.style + "_" + p.color + "__" + p.size;
    var segs := [p.brand, p.style, p.color, "", p.size];
    FiveJoined(segs);
    CodesHaveNoBlanks(p.brand);
    CodesHaveNoBlanks(p.style);
    CodesHaveNoBlanks(p.color);
    CodesHaveNoBlanks(p.size);
    SplitJoin(segs);
    assert Trimmed(text) by {
      assert text[0] == p.brand[0] && text[|text| - 1] == p.size[|p.size| - 1];
    }
    TrimSpaceTrims(text);
    hide Split, TrimSpace, Join, Sane, BuildSku;
    assert Split(TrimSpace(text)) == segs;
    ParseThenBuild(t, text);
  }

  lemma FiveJoined(segs: seq<string>)
    requires |segs| == 5 && segs[3] == ""
    ensures Join(segs) == segs[0] + "_" + segs[1] + "_" + segs[2] + "__" + segs[4]
  {
    assert segs[1..][1..] == segs[2..] && segs[2..][1..] == segs[3..] && segs[3..][1..] == segs[4..];
    assert Join(segs[4..]) == segs[4];
    assert Join(segs[3..]) == "" + "_" + segs[4];
    assert Join(segs[2..]) == segs[2] + "_" + ("" + "_" + segs[4]);
    assert Join(segs[1..]) == segs[1] + "_" + Join(segs[2..]);
  }
}
