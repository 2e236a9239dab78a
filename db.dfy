/**
 * `null_parse` (backend/utils/db.py): the normalisation of "empty"
 * values read from requests and rows to `None`.  `json.loads` is an oracle
 * that gives None when the text does not parse.
 */
module Db {
  import opened Wrappers
  import opened Values
  import opened PyStr

  /** An element of `('null', 'none', '')`. */
  predicate NullWord(v: string) {
    v == "null" || v == "none" || v == ""
  }

  /** A value equal to `{}` or `[]`. */
  predicate EmptyContainer(v: Value) {
    v == Dict(map[]) || v == List([])
  }

  /** `null_parse(value)`. */
  function NullParse(value: Value, loads: string -> Option<Value>): (r: Value)
    ensures value == Null ==> r == Null
    ensures EmptyContainer(value) ==> r == Null
    ensures value.Str? && NullWord(Lower(Strip(value.s))) ==> r == Null
    ensures value.Str? && !NullWord(Lower(Strip(value.s))) ==>
      r == (if loads(value.s).Some? && EmptyContainer(loads(value.s).value) then Null else value)
    ensures !value.Str? && !EmptyContainer(value) ==> r == value
    ensures r == Null || r == value
  {
    if value == Null then Null
    else if EmptyContainer(value) then Null
    else if value.Str? then
      var v := Lower(Strip(value.s));
      if NullWord(v) then Null
      else match loads(value.s)
        case Some(parsed) => if EmptyContainer(parsed) then Null else value
        case None => value
    else value
  }

  /** Whatever `null_parse` returns, parsing it again gives the same: it is idempotent. */
  lemma NullParseIdempotent(value: Value, loads: string -> Option<Value>)
    ensures NullParse(NullParse(value, loads), loads) == NullParse(value, loads)
  {
  }

  /**
   * Text that is one of the null words in any letter case, padded with
   * whitespace on both sides, is None.
   */
  lemma NullWordPadded(pad: string, word: string, loads: string -> Option<Value>)
    requires forall i :: 0 <= i < |pad| ==> IsSpace(pad[i])
    requires word != [] && Stripped(word) && NullWord(Lower(word))
    ensures NullParse(Str(pad + word + pad), loads) == Null
  {
    StripPadded(pad, word);
  }

  /** Blank text is None, whatever `json.loads` would say. */
  lemma BlankIsNull(s: string, loads: string -> Option<Value>)
    requires forall i :: 0 <= i < |s| ==> IsSpace(s[i])
    ensures NullParse(Str(s), loads) == Null
  {
  }
}
