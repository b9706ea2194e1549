/**
 * The few pieces of JavaScript's built-in string and value semantics the
 * authentication code leans on: truthiness of an optional message,
 * `Number.prototype.toString(radix)`, one-argument `String.prototype.substring`,
 * `split` on a single character, `replace` of every occurrence of a
 * character, and removal of a trailing run of one character (`/c+$/`).
 */
module Js {
  import opened Common

  /** Truthiness of a value that is either absent (`undefined`, `null`) or a string. */
  predicate Truthy(v: Option<string>) {
    v.Some? && v.value != ""
  }

  // ---------------------------------------------------------------------------
  // Number.prototype.toString(radix) for non-negative integers

  /** The digit character JavaScript prints for `d` (lower-case letters above 9). */
  function DigitChar(d: nat): (c: char)
    requires d < 36
  {
    if d < 10 then (48 + d) as char else (87 + d) as char
  }

  /** The value of a digit character, the inverse of DigitChar. */
  function DigitValue(c: char): nat {
    if '0' <= c <= '9' then c as int - 48
    else if 'a' <= c <= 'z' then c as int - 87
    else 0
  }

  /** `c` is a digit of base `radix` as JavaScript prints it. */
  predicate IsDigit(c: char, radix: nat) {
    ('0' <= c <= '9' && c as int - 48 < radix) || ('a' <= c <= 'z' && c as int - 87 < radix)
  }

  /** A lower-case hexadecimal digit. */
  predicate IsHexDigit(c: char) {
    '0' <= c <= '9' || 'a' <= c <= 'f'
  }

  lemma DigitRoundTrip(d: nat, radix: nat)
    requires d < radix <= 36
    ensures IsDigit(DigitChar(d), radix) && DigitValue(DigitChar(d)) == d
  {
  }

  /** Euclidean division by a radix: quotient, remainder and their recombination. */
  lemma DivModRadix(n: nat, radix: nat)
    requires 2 <= radix
    ensures n % radix < radix && (n / radix) * radix + n % radix == n
    ensures n >= radix ==> 1 <= n / radix < n
  {
    var q, m := n / radix, n % radix;
    assert q * radix + m == n;
    if n >= radix {
      assert q >= 1;
      AtLeastDouble(q, radix);
    }
  }

  lemma {:induction false} AtLeastDouble(q: nat, r: nat)
    requires 2 <= r
    ensures q * r >= q + q
  {
    if q > 0 {
      AtLeastDouble(q - 1, r);
      assert q * r == (q - 1) * r + r;
    }
  }

  /** `n.toString(radix)` for a non-negative integer `n`: no sign, no leading zeros. */
  function NumberToString(n: nat, radix: nat): (s: string)
    requires 2 <= radix <= 36
    ensures |s| >= 1
    ensures forall i :: 0 <= i < |s| ==> IsDigit(s[i], radix)
    ensures s[0] == '0' ==> n == 0
    decreases n
  {
    if n < radix then [DigitChar(n)]
    else
      DivModRadix(n, radix);
      NumberToString(n / radix, radix) + [DigitChar(n % radix)]
  }

  /** The value of a string of base-`radix` digits, most significant first. */
  function DigitsValue(s: string, radix: nat): nat
    decreases |s|
  {
    if s == [] then 0 else DigitsValue(s[..|s| - 1], radix) * radix + DigitValue(s[|s| - 1])
  }

  /** Printing a number and reading its digits back gives the number. */
  lemma {:induction false} NumberToStringRoundTrip(n: nat, radix: nat)
    requires 2 <= radix <= 36
    ensures DigitsValue(NumberToString(n, radix), radix) == n
    decreases n
  {
    var s := NumberToString(n, radix);
    if n < radix {
      DigitRoundTrip(n, radix);
      assert s[..|s| - 1] == [];
    } else {
      DivModRadix(n, radix);
      NumberToStringRoundTrip(n / radix, radix);
      DigitRoundTrip(n % radix, radix);
      assert s[..|s| - 1] == NumberToString(n / radix, radix);
    }
  }

  /** `16^k`. */
  function Pow16(k: nat): (p: nat)
    ensures p >= 1
  {
    if k == 0 then 1 else 16 * Pow16(k - 1)
  }

  /** A number below `16^k` prints as at most `k` hexadecimal digits (but always at least one). */
  lemma {:induction false} HexLengthBound(n: nat, k: nat)
    requires k >= 1 && n < Pow16(k)
    ensures |NumberToString(n, 16)| <= k
    decreases k
  {
    if n >= 16 {
      assert k >= 2;
      assert n / 16 < Pow16(k - 1);
      HexLengthBound(n / 16, k - 1);
      assert NumberToString(n, 16) == NumberToString(n / 16, 16) + [DigitChar(n % 16)];
    }
  }

  /** Every 32-bit word prints as one to eight lower-case hexadecimal digits. */
  lemma Uint32HexShape(w: uint32)
    ensures 1 <= |NumberToString(w, 16)| <= 8
    ensures forall i :: 0 <= i < |NumberToString(w, 16)| ==> IsHexDigit(NumberToString(w, 16)[i])
  {
    assert Pow16(8) == 0x1_0000_0000;
    HexLengthBound(w, 8);
  }

  // ---------------------------------------------------------------------------
  // Strings

  /** `s.substring(start)`: the start index is clamped into `[0, |s|]`. */
  function Substring(s: string, start: int): (r: string)
    ensures start <= 0 ==> r == s
  {
    if start <= 0 then s else if start >= |s| then "" else s[start..]
  }

  /** `s.split(sep)` for a one-character separator. */
  function Split(s: string, sep: char): (r: seq<string>)
    ensures |r| >= 1
    decreases |s|
  {
    if s == [] then [""]
    else
      var rest := Split(s[1..], sep);
      if s[0] == sep then [""] + rest else [[s[0]] + rest[0]] + rest[1..]
  }

  /** `parts.join(sep)`. */
  function Join(parts: seq<string>, sep: char): string
    requires |parts| >= 1
    decreases |parts|
  {
    if |parts| == 1 then parts[0] else parts[0] + [sep] + Join(parts[1..], sep)
  }

  /** The number of occurrences of `c` in `s`. */
  function Occurrences(s: string, c: char): nat
    decreases |s|
  {
    if s == [] then 0 else (if s[0] == c then 1 else 0) + Occurrences(s[1..], c)
  }

  /** Splitting and joining again with the same separator gives back the string. */
  lemma {:induction false} SplitJoin(s: string, sep: char)
    ensures Join(Split(s, sep), sep) == s
    decreases |s|
  {
    if s != [] {
      SplitJoin(s[1..], sep);
      var rest := Split(s[1..], sep);
      if s[0] != sep {
        if |rest| == 1 {
          assert Join(Split(s, sep), sep) == [s[0]] + rest[0];
        } else {
          var r := Split(s, sep);
          assert r[1..] == rest[1..];
          assert Join(r, sep) == [s[0]] + rest[0] + [sep] + Join(rest[1..], sep);
        }
      }
    }
  }

  /** No field of a split contains the separator, and there is one more field than separators. */
  lemma {:induction false} SplitFields(s: string, sep: char)
    ensures |Split(s, sep)| == Occurrences(s, sep) + 1
    ensures forall i :: 0 <= i < |Split(s, sep)| ==> sep !in Split(s, sep)[i]
    decreases |s|
  {
    if s != [] {
      SplitFields(s[1..], sep);
      var rest := Split(s[1..], sep);
      var r := Split(s, sep);
      if s[0] != sep {
        assert r[0] == [s[0]] + rest[0];
        forall i | 1 <= i < |r| ensures sep !in r[i] {
          assert r[i] == rest[i];
        }
      } else {
        forall i | 1 <= i < |r| ensures sep !in r[i] {
          assert r[i] == rest[i - 1];
        }
      }
    }
  }

  /** A string without the separator splits into itself alone. */
  lemma {:induction false} SplitNoSeparator(s: string, sep: char)
    requires sep !in s
    ensures Split(s, sep) == [s]
    decreases |s|
  {
    if s != [] {
      SplitNoSeparator(s[1..], sep);
      assert [s[0]] + s[1..] == s;
    }
  }

  /** A field without the separator, then the separator, splits off as the first field. */
  lemma {:induction false} SplitAfterField(a: string, b: string, sep: char)
    requires sep !in a
    ensures Split(a + [sep] + b, sep) == [a] + Split(b, sep)
    decreases |a|
  {
    var s := a + [sep] + b;
    if a == [] {
      assert s[1..] == b;
    } else {
      assert s[1..] == a[1..] + [sep] + b;
      SplitAfterField(a[1..], b, sep);
      assert [a[0]] + a[1..] == a;
    }
  }

  /** A character occurs in a string exactly when its count is positive. */
  lemma {:induction false} OccurrencesPositive(s: string, c: char)
    ensures Occurrences(s, c) > 0 <==> c in s
    decreases |s|
  {
    if s != [] {
      OccurrencesPositive(s[1..], c);
      assert c in s <==> s[0] == c || c in s[1..];
    }
  }

  /** `s.replace(/a/g, b)`: every occurrence of the character `a` becomes `b`. */
  function ReplaceAll(s: string, a: char, b: char): string {
    seq(|s|, i requires 0 <= i < |s| => if s[i] == a then b else s[i])
  }

  /**
   * Replacing `a` by another character `b` leaves no `a`, turns every `a`
   * into one more `b`, and keeps the count of every other character.
   */
  lemma {:induction false} ReplaceAllCounts(s: string, a: char, b: char, c: char)
    requires a != b
    ensures a !in ReplaceAll(s, a, b)
    ensures Occurrences(ReplaceAll(s, a, b), b) == Occurrences(s, b) + Occurrences(s, a)
    ensures c != a && c != b ==> Occurrences(ReplaceAll(s, a, b), c) == Occurrences(s, c)
    decreases |s|
  {
    if s != [] {
      var r := ReplaceAll(s, a, b);
      assert r[1..] == ReplaceAll(s[1..], a, b);
      ReplaceAllCounts(s[1..], a, b, c);
      assert r == [r[0]] + r[1..];
    }
  }

  /** `s.replace(/c+$/, '')`: the maximal trailing run of `c` is removed. */
  function StripTrailing(s: string, c: char): (r: string)
    ensures |r| <= |s| && r == s[..|r|]
    ensures r == [] || r[|r| - 1] != c
    ensures forall i :: |r| <= i < |s| ==> s[i] == c
    decreases |s|
  {
    if |s| > 0 && s[|s| - 1] == c then StripTrailing(s[..|s| - 1], c) else s
  }

  // ---------------------------------------------------------------------------
  // Values in text and error objects

  /** A possibly-undefined string placed in a template literal: `${v}`. */
  function TemplateText(v: Option<string>): string {
    v.OrElse("undefined")
  }

  /**
   * The own value of a prototype property after the module-level
   * assignments `C.prototype.p = v` in `writes`, in order: the value of the
   * last write to that class, or `None` when there is none and the value is
   * inherited.
   */
  function PrototypeProperty<K(==), V>(writes: seq<(K, V)>, k: K): Option<V>
    decreases |writes|
  {
    if writes == [] then None
    else if writes[|writes| - 1].0 == k then Some(writes[|writes| - 1].1)
    else PrototypeProperty(writes[..|writes| - 1], k)
  }

  /** The property is inherited exactly when no write targets the class, and otherwise comes from the last write to it. */
  lemma {:induction false} PrototypePropertyMeaning<K, V>(writes: seq<(K, V)>, k: K)
    ensures var v := PrototypeProperty(writes, k);
      ((forall i :: 0 <= i < |writes| ==> writes[i].0 != k) <==> v.None?) &&
      (v.Some? ==>
        exists i :: 0 <= i < |writes| && writes[i].0 == k && v.value == writes[i].1 &&
          forall j :: i < j < |writes| ==> writes[j].0 != k)
    decreases |writes|
  {
    if writes != [] {
      var n := |writes| - 1;
      if writes[n].0 != k {
        var init := writes[..n];
        PrototypePropertyMeaning(init, k);
        assert forall i :: 0 <= i < n ==> init[i] == writes[i];
      }
    }
  }

  /** With no write to the class, the property is inherited. */
  lemma NoWriteInherits<K, V>(writes: seq<(K, V)>, k: K)
    requires forall i :: 0 <= i < |writes| ==> writes[i].0 != k
    ensures PrototypeProperty(writes, k).None?
  {
    PrototypePropertyMeaning(writes, k);
  }

  /** A write to the class that no later write to it overrides gives the property's value. */
  lemma {:induction false} LastWriteWins<K, V>(writes: seq<(K, V)>, k: K, i: nat)
    requires i < |writes| && writes[i].0 == k
    requires forall j :: i < j < |writes| ==> writes[j].0 != k
    ensures PrototypeProperty(writes, k) == Some(writes[i].1)
    decreases |writes|
  {
    if i < |writes| - 1 {
      LastWriteWins(writes[..|writes| - 1], k, i);
    }
  }

  /** `Error.prototype.toString()`: name and message joined by `": "`, either alone when the other is empty. */
  function ErrorToString(name: string, message: string): (r: string)
    ensures |name| <= |r| && r[..|name|] == name
    ensures |message| <= |r| && r[|r| - |message|..] == message
    ensures |r| == |name| + |message| + (if name != "" && message != "" then 2 else 0)
  {
    if name == "" then message else if message == "" then name else name + ": " + message
  }
}
