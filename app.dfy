/**
 * The CORS origin list of backend/app.py: the `FRONTEND_ORIGIN`
 * environment variable (an input here), split on commas, each piece
 * stripped, blank pieces dropped.
 */
module App {
  import opened Wrappers
  import opened PyStr

  /** `[p.strip() for p in pieces if p.strip()]` */
  function StrippedNonBlank(pieces: seq<string>): (r: seq<string>)
    ensures |r| <= |pieces|
  {
    if pieces == [] then []
    else
      var init := pieces[..|pieces| - 1];
      var p := Strip(pieces[|pieces| - 1]);
      StrippedNonBlank(init) + (if p != "" then [p] else [])
  }

  /** Every entry the comprehension keeps is non-blank and stripped. */
  lemma {:induction false} StrippedNonBlankClean(pieces: seq<string>)
    ensures forall k :: 0 <= k < |StrippedNonBlank(pieces)| ==>
      StrippedNonBlank(pieces)[k] != "" && Stripped(StrippedNonBlank(pieces)[k])
    decreases |pieces|
  {
    if pieces != [] {
      var init, p := pieces[..|pieces| - 1], Strip(pieces[|pieces| - 1]);
      StrippedNonBlankClean(init);
      var front, r := StrippedNonBlank(init), StrippedNonBlank(pieces);
      assert r == front + (if p != "" then [p] else []);
      forall k | 0 <= k < |r|
        ensures r[k] != "" && Stripped(r[k])
      {
        if k >= |front| {
          assert r[k] == p;
        }
      }
    }
  }

  /** The comprehension keeps the order of the pieces: it distributes over concatenation. */
  lemma {:induction false} StrippedNonBlankAppend(a: seq<string>, b: seq<string>)
    ensures StrippedNonBlank(a + b) == StrippedNonBlank(a) + StrippedNonBlank(b)
    decreases |b|
  {
    if b == [] {
      assert a + b == a;
    } else {
      var b' := b[..|b| - 1];
      assert (a + b)[..|a + b| - 1] == a + b';
      assert (a + b)[|a + b| - 1] == b[|b| - 1];
      StrippedNonBlankAppend(a, b');
    }
  }

  /** One piece contributes its stripped text, or nothing when it is blank. */
  lemma StrippedNonBlankSingle(p: string)
    ensures StrippedNonBlank([p]) == (if Strip(p) != "" then [Strip(p)] else [])
  {
    assert [p][..0] == [];
  }

  /** `allowed_origins`, with an unset variable read as `''`. */
  function AllowedOrigins(frontendOrigin: Option<string>): (origins: seq<string>)
    ensures forall k :: 0 <= k < |origins| ==> origins[k] != "" && Stripped(origins[k]) && ',' !in origins[k]
  {
    var raw := if frontendOrigin.Some? then frontendOrigin.value else "";
    var pieces := Split(raw, ',');
    CommaFree(pieces);
    StrippedNonBlankClean(pieces);
    StrippedNonBlank(pieces)
  }

  /** Pieces without commas give entries without commas. */
  lemma {:induction false} CommaFree(pieces: seq<string>)
    requires forall k :: 0 <= k < |pieces| ==> ',' !in pieces[k]
    ensures forall k :: 0 <= k < |StrippedNonBlank(pieces)| ==> ',' !in StrippedNonBlank(pieces)[k]
    decreases |pieces|
  {
    if pieces != [] {
      var init := pieces[..|pieces| - 1];
      CommaFree(init);
      StripSubstring(pieces[|pieces| - 1], ',');
    }
  }

  /** An unset or empty variable allows no origin. */
  lemma NoOrigins(frontendOrigin: Option<string>)
    requires frontendOrigin.None? || frontendOrigin.value == ""
    ensures AllowedOrigins(frontendOrigin) == []
  {
    var raw := if frontendOrigin.Some? then frontendOrigin.value else "";
    assert Split(raw, ',') == [raw];
    StrippedNonBlankSingle(raw);
  }

  /**
   * Round trip: a list of non-blank, stripped origins without commas,
   * written comma-separated, is read back exactly.
   */
  lemma OriginsRoundTrip(origins: seq<string>)
    requires origins != []
    requires forall k :: 0 <= k < |origins| ==> origins[k] != "" && Stripped(origins[k]) && ',' !in origins[k]
    ensures AllowedOrigins(Some(Join(origins, ","))) == origins
  {
    SplitJoin(origins, ',');
    KeepsClean(origins);
  }

  /** Clean entries pass through the comprehension unchanged. */
  lemma {:induction false} KeepsClean(xs: seq<string>)
    requires forall k :: 0 <= k < |xs| ==> xs[k] != "" && Stripped(xs[k])
    ensures StrippedNonBlank(xs) == xs
    decreases |xs|
  {
    if xs != [] {
      var init := xs[..|xs| - 1];
      KeepsClean(init);
      StripOfStripped(xs[|xs| - 1]);
      assert init + [xs[|xs| - 1]] == xs;
    }
  }

  /** Two non-blank pieces around a blank one leave their two stripped texts. */
  lemma BlankBetween(x: string, y: string, z: string)
    requires Strip(x) != "" && Strip(y) == "" && Strip(z) != ""
    ensures StrippedNonBlank([x, y, z]) == [Strip(x), Strip(z)]
  {
    var one, two, three := [x], [x, y], [x, y, z];
    assert one[..0] == [] && two[..1] == one && three[..2] == two;
    assert StrippedNonBlank(one) == [Strip(x)];
    assert StrippedNonBlank(two) == [Strip(x)];
  }

  /** Padded entries around a blank piece clean up to the two entries. */
  lemma PaddedPieces(a: string, b: string, pad: string)
    requires a != "" && Stripped(a)
    requires b != "" && Stripped(b)
    requires forall i :: 0 <= i < |pad| ==> IsSpace(pad[i])
    ensures StrippedNonBlank([pad + a + pad, pad, pad + b + pad]) == [a, b]
  {
    StripPadded(pad, a);
    StripPadded(pad, b);
    BlankBetween(pad + a + pad, pad, pad + b + pad);
  }

  /** Blank segments and padding around entries are dropped: `" a , ,b "` reads as `a`, `b`. */
  lemma PaddedEntries(a: string, b: string, pad: string)
    requires a != "" && Stripped(a) && ',' !in a
    requires b != "" && Stripped(b) && ',' !in b
    requires forall i :: 0 <= i < |pad| ==> IsSpace(pad[i])
    requires ',' !in pad
    ensures AllowedOrigins(Some(Join([pad + a + pad, pad, pad + b + pad], ","))) == [a, b]
  {
    var pieces := [pad + a + pad, pad, pad + b + pad];
    assert forall k :: 0 <= k < |pieces| ==> ',' !in pieces[k];
    SplitJoin(pieces, ',');
    PaddedPieces(a, b, pad);
  }
}
