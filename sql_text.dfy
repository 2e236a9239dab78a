/**
 * Counting the `%s` placeholders of a psycopg2 query string, so that the
 * dynamic UPDATE builders can be shown to supply one parameter per
 * placeholder.
 */
module SqlText {
  import opened PyStr

  /** The number of `%s` occurrences in `s`. */
  function Placeholders(s: string): (n: nat)
    ensures n > 0 <==> exists i :: 0 <= i < |s| - 1 && s[i] == '%' && s[i + 1] == 's'
  {
    if |s| < 2 then 0
    else
      var rest := Placeholders(s[1..]);
      assert rest > 0 ==> exists i :: 0 < i < |s| - 1 && s[i] == '%' && s[i + 1] == 's' by {
        if rest > 0 {
          var j :| 0 <= j < |s[1..]| - 1 && s[1..][j] == '%' && s[1..][j + 1] == 's';
          assert s[j + 1] == '%' && s[j + 2] == 's';
        }
      }
      (if s[0] == '%' && s[1] == 's' then 1 else 0) + rest
  }

  predicate EndsWithPercent(s: string) {
    s != [] && s[|s| - 1] == '%'
  }

  predicate StartsWithS(s: string) {
    s != [] && s[0] == 's'
  }

  /** Placeholders of a concatenation: those of each side, plus one if `%` and `s` meet at the seam. */
  lemma {:induction false} PlaceholdersAppend(a: string, b: string)
    ensures Placeholders(a + b)
         == Placeholders(a) + Placeholders(b) + (if EndsWithPercent(a) && StartsWithS(b) then 1 else 0)
    decreases |a|
  {
    if a == [] {
      assert a + b == b;
    } else if |a| == 1 {
      if b != [] {
        assert (a + b)[1..] == b;
      }
    } else {
      assert (a + b)[1..] == a[1..] + b;
      PlaceholdersAppend(a[1..], b);
    }
  }

  /** A string without `%` has no placeholder. */
  lemma {:induction false} NoPercentNoPlaceholders(s: string)
    requires '%' !in s
    ensures Placeholders(s) == 0
    decreases |s|
  {
    if |s| >= 2 {
      assert s[0] != '%';
      assert '%' !in s[1..];
      NoPercentNoPlaceholders(s[1..]);
    }
  }

  /** The SET fragment `col = %s` of a column name without `%` holds exactly one placeholder. */
  lemma FragmentPlaceholders(col: string)
    requires '%' !in col
    ensures Placeholders(col + " = %s") == 1
    ensures !EndsWithPercent(col + " = %s") && (StartsWithS(col + " = %s") <==> StartsWithS(col + " "))
  {
    NoPercentNoPlaceholders(col);
    PlaceholdersAppend(col, " = %s");
    var t := " = %s";
    assert t[1..] == "= %s" && t[1..][1..] == " %s" && t[1..][1..][1..] == "%s";
    assert Placeholders("%s") == 1;
    assert Placeholders(t) == 1;
  }

  /**
   * Joining fragments that carry one placeholder each with a separator
   * that carries none and cannot form `%s` at a seam gives one
   * placeholder per fragment.
   */
  lemma {:induction false} JoinPlaceholders(xs: seq<string>, sep: string)
    requires sep != [] && '%' !in sep && !StartsWithS(sep)
    requires forall k :: 0 <= k < |xs| ==> Placeholders(xs[k]) == 1
    ensures Placeholders(Join(xs, sep)) == |xs|
    decreases |xs|
  {
    if |xs| >= 2 {
      JoinPlaceholders(xs[1..], sep);
      NoPercentNoPlaceholders(sep);
      PlaceholdersAppend(xs[0], sep);
      PlaceholdersAppend(xs[0] + sep, Join(xs[1..], sep));
      assert !EndsWithPercent(xs[0] + sep) by {
        assert (xs[0] + sep)[|xs[0] + sep| - 1] == sep[|sep| - 1];
      }
    }
  }

  /**
   * The whole statement `prefix + join(fragments) + suffix`, where the
   * prefix does not end in `%` and the suffix does not start with `s`.
   */
  lemma StatementPlaceholders(prefix: string, xs: seq<string>, sep: string, suffix: string)
    requires sep != [] && '%' !in sep && !StartsWithS(sep)
    requires forall k :: 0 <= k < |xs| ==> Placeholders(xs[k]) == 1
    requires !EndsWithPercent(prefix) && !StartsWithS(suffix)
    ensures Placeholders(prefix + Join(xs, sep) + suffix) == Placeholders(prefix) + |xs| + Placeholders(suffix)
  {
    JoinPlaceholders(xs, sep);
    PlaceholdersAppend(prefix, Join(xs, sep));
    PlaceholdersAppend(prefix + Join(xs, sep), suffix);
  }

  /** `f"{col} = %s"`: the SET fragment of one column. */
  function Fragment(col: string): string {
    col + " = %s"
  }

  /** The SET fragments of the given columns, in order. */
  function Fragments(cols: seq<string>): (fs: seq<string>)
    ensures |fs| == |cols| && forall k :: 0 <= k < |cols| ==> fs[k] == Fragment(cols[k])
  {
    seq(|cols|, k requires 0 <= k < |cols| => Fragment(cols[k]))
  }

  /** Each fragment of a column name without `%` holds exactly one placeholder. */
  lemma FragmentsPlaceholders(cols: seq<string>)
    requires forall k :: 0 <= k < |cols| ==> '%' !in cols[k]
    ensures forall k :: 0 <= k < |cols| ==> Placeholders(Fragments(cols)[k]) == 1
  {
    forall k | 0 <= k < |cols| ensures Placeholders(Fragments(cols)[k]) == 1 {
      FragmentPlaceholders(cols[k]);
    }
  }

  /**
   * An UPDATE text `prefix + ", ".join(fragments) + suffix` over columns
   * without `%` holds one placeholder per column, plus those of the suffix.
   */
  lemma SetListPlaceholders(prefix: string, cols: seq<string>, suffix: string)
    requires forall k :: 0 <= k < |cols| ==> '%' !in cols[k]
    requires Placeholders(prefix) == 0 && !EndsWithPercent(prefix)
    requires !StartsWithS(suffix)
    ensures Placeholders(prefix + Join(Fragments(cols), ", ") + suffix) == |cols| + Placeholders(suffix)
  {
    FragmentsPlaceholders(cols);
    var sep := ", ";
    assert '%' !in sep && !StartsWithS(sep);
    StatementPlaceholders(prefix, Fragments(cols), sep, suffix);
  }
}
