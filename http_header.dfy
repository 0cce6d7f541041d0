/**
 * Go's `http.Header`: a map from canonical header names to the list of
 * values received under that name, in order. Every operation canonicalises
 * the name it is given the way `textproto.CanonicalMIMEHeaderKey` does.
 */
module HttpHeader {

  type Fields = map<string, seq<string>>

  /** A token character of RFC 7230, section 3.2.6 (what Go accepts in a header name). */
  predicate IsTokenChar(c: char)
  {
    || ('a' <= c <= 'z') || ('A' <= c <= 'Z') || ('0' <= c <= '9')
    || c == '!' || c == '#' || c == '$' || c == '%' || c == '&' || c == '\'' || c == '*'
    || c == '+' || c == '-' || c == '.' || c == '^' || c == '_' || c == '`' || c == '|' || c == '~'
  }

  predicate AllTokenChars(s: string)
  {
    forall i :: 0 <= i < |s| ==> IsTokenChar(s[i])
  }

  /**
   * The letter case `CanonicalMIMEHeaderKey` gives the character at `i`: upper
   * case at the start and after a hyphen, lower case elsewhere; characters
   * that are not ASCII letters are kept.
   */
  function CaseAt(s: string, i: nat): (c: char)
    requires i < |s|
    ensures ('a' <= c <= 'z' || 'A' <= c <= 'Z') <==> ('a' <= s[i] <= 'z' || 'A' <= s[i] <= 'Z')
    ensures !('a' <= s[i] <= 'z' || 'A' <= s[i] <= 'Z') ==> c == s[i]
  {
    var upper := i == 0 || s[i - 1] == '-';
    if upper && 'a' <= s[i] <= 'z' then (s[i] as int - 32) as char
    else if !upper && 'A' <= s[i] <= 'Z' then (s[i] as int + 32) as char
    else s[i]
  }

  /**
   * `textproto.CanonicalMIMEHeaderKey`: a name made of token characters gets
   * its canonical letter case ("content-type" becomes "Content-Type", "TE"
   * becomes "Te"); any other name (with a space, a non-ASCII letter, ...)
   * is returned unchanged.
   */
  function Canon(name: string): (r: string)
    ensures |r| == |name|
    ensures forall i :: 0 <= i < |name| ==> r[i] == if AllTokenChars(name) then CaseAt(name, i) else name[i]
  {
    if AllTokenChars(name) then seq(|name|, i requires 0 <= i < |name| => CaseAt(name, i)) else name
  }

  /** A name of token characters already in canonical letter case is its own canonical form. */
  lemma CanonOfCanonical(name: string)
    requires AllTokenChars(name)
    requires forall i :: 0 <= i < |name| ==> CaseAt(name, i) == name[i]
    ensures Canon(name) == name
  {
  }

  /** The two cases the proxy depends on exactly: the empty name and `TE`. */
  lemma CanonEmptyAndTE()
    ensures Canon("") == ""
    ensures Canon("TE") == "Te"
  {
    assert AllTokenChars("TE");
    assert Canon("TE")[1] == 'e';
  }

  /** Every key is in the form Canon gives it (as the transport delivers headers and trailers). */
  predicate IsCanonical(m: Fields)
  {
    forall k :: k in m ==> Canon(k) == k
  }

  type CanonicalFields = m: Fields | IsCanonical(m) witness map[]

  /** The values stored under the exact key `key`, none when it is absent. */
  function Values(m: Fields, key: string): seq<string>
  {
    if key in m then m[key] else []
  }

  /** The first value stored under the exact key `key`, or "" when there is none. */
  function FirstValue(m: Fields, key: string): (v: string)
    ensures v != "" ==> key in m && m[key] != [] && m[key][0] == v
    ensures (key in m && m[key] != []) ==> v == m[key][0]
  {
    var vs := Values(m, key);
    if |vs| == 0 then "" else vs[0]
  }

  /**
   * `dst` after `src` was added to it value by value: for every key, the
   * values of `dst` followed by those of `src`. A key of `src` with no values
   * adds nothing.
   */
  function Merged(dst: Fields, src: Fields): (r: Fields)
    ensures forall k :: k in r <==> (k in dst || (k in src && src[k] != []))
  {
    map k | k in dst.Keys + src.Keys && (k in dst || src[k] != []) :: Values(dst, k) + Values(src, k)
  }

  /** What Merged keeps: the old values come first, the added ones last, other keys untouched. */
  lemma MergedValues(dst: Fields, src: Fields, k: string)
    ensures Values(Merged(dst, src), k) == Values(dst, k) + Values(src, k)
    ensures k !in src ==> Values(Merged(dst, src), k) == Values(dst, k)
  {
    if k !in Merged(dst, src) {
      assert Values(dst, k) == [] && Values(src, k) == [];
    }
  }

  /** Adding one more value under key `k` of `src`. */
  lemma MergedSnoc(dst: Fields, src: Fields, k: string, vs: seq<string>, v: string)
    ensures Merged(dst, src[k := vs + [v]])
         == Merged(dst, src[k := vs])[k := Values(Merged(dst, src[k := vs]), k) + [v]]
  {
    var l := Merged(dst, src[k := vs + [v]]);
    var m := Merged(dst, src[k := vs]);
    var r := m[k := Values(m, k) + [v]];
    assert l.Keys == r.Keys;
    forall key | key in l ensures l[key] == r[key] {
      MergedValues(dst, src[k := vs + [v]], key);
      MergedValues(dst, src[k := vs], key);
    }
  }

  /** The header an `http.Header` value denotes, updated in place by its methods. */
  class Header {
    var fields: Fields

    constructor (fields: Fields)
      ensures this.fields == fields
    {
      this.fields := fields;
    }

    /** `Header.Get`. */
    function Get(name: string): (v: string)
      reads this
      ensures v == FirstValue(fields, Canon(name))
    {
      FirstValue(fields, Canon(name))
    }

    /** `Header.Set`: the canonical name now holds exactly `value`. */
    method Set(name: string, value: string)
      modifies this
      ensures fields == old(fields)[Canon(name) := [value]]
    {
      fields := fields[Canon(name) := [value]];
    }

    /** `Header.Add`: `value` is appended after the values already held under the canonical name. */
    method Add(name: string, value: string)
      modifies this
      ensures fields == old(fields)[Canon(name) := Values(old(fields), Canon(name)) + [value]]
    {
      var key := Canon(name);
      fields := fields[key := Values(fields, key) + [value]];
    }

    /** `Header.Del`: the canonical name is gone, nothing else changes. */
    method Del(name: string)
      modifies this
      ensures fields == old(fields) - {Canon(name)}
    {
      fields := fields - {Canon(name)};
    }
  }

  /**
   * The loop `for name, values := range src { for _, v := range values {
   * h.Add(name, v) } }`, which the proxy uses to copy response headers and
   * trailers. The keys are visited in an arbitrary order, as Go's map
   * iteration does; because they are canonical the result does not depend
   * on that order.
   */
  method AddAll(h: Header, src: CanonicalFields)
    modifies h
    ensures h.fields == Merged(old(h.fields), src)
  {
    var remaining := src.Keys;
    ghost var copied: Fields := map[];
    MergedNothing(h.fields, copied);
    while remaining != {}
      invariant remaining <= src.Keys
      invariant copied.Keys == src.Keys - remaining
      invariant forall k :: k in copied ==> copied[k] == src[k]
      invariant h.fields == Merged(old(h.fields), copied)
      decreases remaining
    {
      var name :| name in remaining;
      assert Canon(name) == name;
      AddValues(h, name, src[name]);
      MergedTwice(old(h.fields), copied, name, src[name]);
      copied := copied[name := src[name]];
      remaining := remaining - {name};
    }
    assert copied == src;
  }

  /** The inner loop of AddAll: every value of one canonical name, in order. */
  method AddValues(h: Header, name: string, values: seq<string>)
    requires Canon(name) == name
    modifies h
    ensures h.fields == Merged(old(h.fields), map[name := values])
  {
    ghost var before := h.fields;
    for j := 0 to |values|
      invariant h.fields == if j == 0 then before else before[name := Values(before, name) + values[..j]]
    {
      assert values[..j + 1] == values[..j] + [values[j]];
      assert Values(h.fields, name) == Values(before, name) + values[..j] by {
        if j == 0 {
          assert Values(before, name) + values[..0] == Values(before, name);
        }
      }
      ghost var prev := h.fields;
      h.Add(name, values[j]);
      assert h.fields == before[name := Values(before, name) + values[..j + 1]] by {
        var goal := before[name := Values(before, name) + values[..j + 1]];
        assert h.fields.Keys == goal.Keys;
        forall k | k in goal ensures h.fields[k] == goal[k] {
          if k != name {
            assert h.fields[k] == prev[k];
          }
        }
      }
    }
    assert values[..|values|] == values;
    MergedOne(before, name, values);
  }

  /** Merging one more key after the others is merging them together. */
  lemma MergedTwice(dst: Fields, part: Fields, name: string, values: seq<string>)
    requires name !in part
    ensures Merged(Merged(dst, part), map[name := values]) == Merged(dst, part[name := values])
  {
    var l := Merged(Merged(dst, part), map[name := values]);
    var r := Merged(dst, part[name := values]);
    assert l.Keys == r.Keys;
    forall k | k in l ensures l[k] == r[k] {
      MergedValues(Merged(dst, part), map[name := values], k);
      MergedValues(dst, part, k);
      MergedValues(dst, part[name := values], k);
    }
  }

  /** Merging values under one key appends them there, or changes nothing when there are none. */
  lemma MergedOne(dst: Fields, key: string, values: seq<string>)
    ensures Merged(dst, map[key := values]) == if values == [] then dst else dst[key := Values(dst, key) + values]
  {
    if values == [] {
      MergedNothing(dst, map[key := values]);
    } else {
      var l := Merged(dst, map[key := values]);
      var r := dst[key := Values(dst, key) + values];
      assert l.Keys == r.Keys;
      forall k | k in l ensures l[k] == r[k] {
        MergedValues(dst, map[key := values], k);
      }
    }
  }

  /** Keys with no values add nothing to a merge. */
  lemma MergedNothing(dst: Fields, src: Fields)
    requires forall k :: k in src ==> src[k] == []
    ensures Merged(dst, src) == dst
  {
    var l := Merged(dst, src);
    assert l.Keys == dst.Keys;
    forall k | k in l ensures l[k] == dst[k] {
      assert Values(src, k) == [];
    }
  }
}
