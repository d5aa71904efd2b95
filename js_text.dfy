/**
 * The two pieces of JavaScript string semantics the coordinator relies on:
 * truthiness of an optional string field (`!roomId`, `a || b`) and
 * `String.prototype.trim`, which create-room applies to a requested room id.
 */
module JsText {
  import opened Wrappers

  /** A string field is truthy when it is present and not the empty string. */
  predicate Truthy(o: Option<string>) {
    o.Some? && o.value != ""
  }

  /**
   * The characters `trim` removes: ECMAScript WhiteSpace (tab, vertical tab,
   * form feed, space, no-break space, byte order mark and the Unicode space
   * separators) and LineTerminator (line feed, carriage return, line and
   * paragraph separators).
   */
  predicate IsJsWhitespace(c: char) {
    || c == '\t' || c == '\n' || c == '\U{000B}' || c == '\U{000C}' || c == '\r'
    || c == ' ' || c == '\U{00A0}' || c == '\U{1680}'
    || ('\U{2000}' <= c <= '\U{200A}')
    || c == '\U{2028}' || c == '\U{2029}' || c == '\U{202F}' || c == '\U{205F}'
    || c == '\U{3000}' || c == '\U{FEFF}'
  }

  /** Drops the leading whitespace: what remains is a suffix that starts with a non-blank. */
  function TrimStart(s: string): (r: string)
    ensures |r| <= |s| && r == s[|s| - |r|..]
    ensures r == [] || !IsJsWhitespace(r[0])
    ensures forall i :: 0 <= i < |s| - |r| ==> IsJsWhitespace(s[i])
  {
    if s != [] && IsJsWhitespace(s[0]) then TrimStart(s[1..]) else s
  }

  /** Drops the trailing whitespace: what remains is a prefix that ends with a non-blank. */
  function TrimEnd(s: string): (r: string)
    ensures |r| <= |s| && r == s[..|r|]
    ensures r == [] || !IsJsWhitespace(r[|r| - 1])
    ensures forall i :: |r| <= i < |s| ==> IsJsWhitespace(s[i])
  {
    if s != [] && IsJsWhitespace(s[|s| - 1]) then TrimEnd(s[..|s| - 1]) else s
  }

  /** Every character of `p` is whitespace. */
  predicate AllBlank(p: string) {
    forall i :: 0 <= i < |p| ==> IsJsWhitespace(p[i])
  }

  /**
   * `String.prototype.trim`: the input is the result with whitespace padding
   * on either side, and the result's ends are not blank.
   */
  function Trim(s: string): (r: string)
    ensures |r| <= |s|
    ensures exists pad, pad' :: AllBlank(pad) && AllBlank(pad') && s == pad + r + pad'
    ensures r == [] || (!IsJsWhitespace(r[0]) && !IsJsWhitespace(r[|r| - 1]))
    ensures r == [] <==> forall i :: 0 <= i < |s| ==> IsJsWhitespace(s[i])
  {
    var t := TrimStart(s);
    assert t == [] ==> forall i :: 0 <= i < |s| ==> IsJsWhitespace(s[i]);
    TrimIsPadded(s);
    TrimEnd(t)
  }

  /** What `trim` keeps is one slice of the input, with only whitespace around it. */
  lemma TrimIsPadded(s: string)
    ensures exists pad, pad' :: AllBlank(pad) && AllBlank(pad') && s == pad + TrimEnd(TrimStart(s)) + pad'
  {
    var t := TrimStart(s);
    var u := TrimEnd(t);
    var pad := s[..|s| - |t|];
    var pad' := t[|u|..];
    assert AllBlank(pad);
    assert AllBlank(pad') by {
      forall i | 0 <= i < |pad'| ensures IsJsWhitespace(pad'[i]) {
        assert pad'[i] == t[|u| + i];
      }
    }
    SliceSplit(s, t, u);
  }

  /** A suffix `t` of `s` and a prefix `u` of `t` cut `s` into three consecutive pieces. */
  lemma SliceSplit(s: string, t: string, u: string)
    requires |t| <= |s| && t == s[|s| - |t|..]
    requires |u| <= |t| && u == t[..|u|]
    ensures s == s[..|s| - |t|] + u + t[|u|..]
  {
    assert t == u + t[|u|..];
    assert s == s[..|s| - |t|] + t;
  }

  /** A string without leading or trailing whitespace is its own trim. */
  lemma {:induction false} TrimFixesTrimmed(s: string)
    requires s == [] || (!IsJsWhitespace(s[0]) && !IsJsWhitespace(s[|s| - 1]))
    ensures Trim(s) == s
  {
  }

  /** Trimming twice is trimming once. */
  lemma {:induction false} TrimIdempotent(s: string)
    ensures Trim(Trim(s)) == Trim(s)
  {
    TrimFixesTrimmed(Trim(s));
  }

  /** Leading whitespace in front of a string that starts with a non-blank is exactly what TrimStart drops. */
  lemma {:induction false} TrimStartSkips(pad: string, x: string)
    requires AllBlank(pad)
    requires x == [] || !IsJsWhitespace(x[0])
    ensures TrimStart(pad + x) == x
    decreases |pad|
  {
    if pad == [] {
      assert pad + x == x;
    } else {
      assert (pad + x)[0] == pad[0];
      assert (pad + x)[1..] == pad[1..] + x;
      assert AllBlank(pad[1..]) by {
        forall i | 0 <= i < |pad[1..]| ensures IsJsWhitespace(pad[1..][i]) {
          assert pad[1..][i] == pad[i + 1];
        }
      }
      TrimStartSkips(pad[1..], x);
    }
  }

  /** Trailing whitespace behind a string that ends with a non-blank is exactly what TrimEnd drops. */
  lemma {:induction false} TrimEndSkips(x: string, pad: string)
    requires AllBlank(pad)
    requires x == [] || !IsJsWhitespace(x[|x| - 1])
    ensures TrimEnd(x + pad) == x
    decreases |pad|
  {
    if pad == [] {
      assert x + pad == x;
    } else {
      var w := x + pad;
      var p := pad[..|pad| - 1];
      assert w[|w| - 1] == pad[|pad| - 1];
      assert w[..|w| - 1] == x + p;
      assert AllBlank(p) by {
        forall i | 0 <= i < |p| ensures IsJsWhitespace(p[i]) {
          assert p[i] == pad[i];
        }
      }
      TrimEndSkips(x, p);
    }
  }

  /** Whitespace around a string does not survive the trim. */
  lemma {:induction false} TrimStripsPadding(pad: string, s: string, pad': string)
    requires AllBlank(pad) && AllBlank(pad')
    requires s == [] || (!IsJsWhitespace(s[0]) && !IsJsWhitespace(s[|s| - 1]))
    ensures Trim(pad + s + pad') == s
  {
    if s == [] {
      assert pad + s + pad' == pad + pad';
      assert AllBlank(pad + pad') by {
        forall i | 0 <= i < |pad + pad'| ensures IsJsWhitespace((pad + pad')[i]) {
          if i < |pad| { assert (pad + pad')[i] == pad[i]; } else { assert (pad + pad')[i] == pad'[i - |pad|]; }
        }
      }
      TrimStartSkips(pad + pad', []);
      assert pad + pad' + [] == pad + pad';
    } else {
      assert (s + pad')[0] == s[0];
      assert pad + s + pad' == pad + (s + pad');
      TrimStartSkips(pad, s + pad');
      TrimEndSkips(s, pad');
    }
  }
}
