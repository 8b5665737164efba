/** Variable substitution (`TemplateProcessor.substituteVariables`): every
    `{{name}}` placeholder in every string of a value is replaced, in one
    left-to-right pass, by the variable of that name when that variable is
    truthy, and left as it is otherwise. */
module Substitution {
  import opened Wrappers
  import opened Text
  import opened Json

  /** Variable names to replacement texts. */
  type Variables = map<string, string>

  /** The text of the placeholder for `key`. */
  function Placeholder(key: string): string {
    "{{" + key + "}}"
  }

  /** The placeholder `/\{\{(\w+)\}\}/` matched at the very start of `s`, if
      any, given by its captured name. */
  function PlaceholderAt(s: string): (r: Option<string>)
    ensures r.Some? ==> |r.value| + 4 <= |s|
  {
    if |s| >= 2 && s[0] == '{' && s[1] == '{' then
      var n := WordRun(s[2..]);
      if n >= 1 && n + 4 <= |s| && s[n + 2] == '}' && s[n + 3] == '}' then
        assert s[2..n + 2] == s[2..][..n];
        Some(s[2..n + 2])
      else None
    else None
  }

  /** What is matched is exactly the placeholder of the captured name. */
  lemma PlaceholderMatched(s: string)
    requires PlaceholderAt(s).Some?
    ensures |PlaceholderAt(s).value| >= 1 && AllWordChars(PlaceholderAt(s).value)
    ensures s[..|PlaceholderAt(s).value| + 4] == Placeholder(PlaceholderAt(s).value)
  {
    var n := WordRun(s[2..]);
    WordRunSpec(s[2..]);
    assert PlaceholderAt(s).value == s[2..n + 2] == s[2..][..n];
    assert s[..n + 4] == Placeholder(s[2..n + 2]);
  }

  /** The text that stands in for the placeholder of `key`:
      `variables[key] || match`. */
  function Replacement(key: string, vars: Variables): string {
    if key in vars && vars[key] != "" then vars[key] else Placeholder(key)
  }

  /** `s.replace(/\{\{(\w+)\}\}/g, …)`: scan left to right; at a placeholder
      emit its replacement and resume after it, otherwise keep one character. */
  function ReplaceAll(s: string, vars: Variables): string
    decreases |s|
  {
    if s == [] then []
    else
      match PlaceholderAt(s)
      case Some(key) => Replacement(key, vars) + ReplaceAll(s[|key| + 4..], vars)
      case None => [s[0]] + ReplaceAll(s[1..], vars)
  }

  /** No position of `s` starts a placeholder. */
  predicate NoPlaceholder(s: string) {
    forall i :: 0 <= i <= |s| ==> PlaceholderAt(s[i..]).None?
  }

  /** A string without placeholders is returned unchanged. */
  lemma {:induction false} ReplaceAllNoPlaceholder(s: string, vars: Variables)
    requires NoPlaceholder(s)
    ensures ReplaceAll(s, vars) == s
    decreases |s|
  {
    if s != [] {
      assert PlaceholderAt(s[0..]).None?;
      assert s[0..] == s;
      forall i | 0 <= i <= |s[1..]| ensures PlaceholderAt(s[1..][i..]).None? {
        assert s[1..][i..] == s[i + 1..];
      }
      ReplaceAllNoPlaceholder(s[1..], vars);
    }
  }

  /** With no truthy variable every placeholder stays literally in place, so
      the string comes back unchanged. */
  lemma {:induction false} ReplaceAllUnresolved(s: string, vars: Variables)
    requires forall k :: k in vars ==> vars[k] == ""
    ensures ReplaceAll(s, vars) == s
    decreases |s|
  {
    if s == [] {
    } else if PlaceholderAt(s).Some? {
      UnresolvedRest(s, vars);
      KeepPlaceholder(s, vars);
    } else {
      ReplaceAllUnresolved(s[1..], vars);
      KeepLiteral(s, vars);
    }
  }

  lemma {:induction false} UnresolvedRest(s: string, vars: Variables)
    requires PlaceholderAt(s).Some?
    requires forall k :: k in vars ==> vars[k] == ""
    ensures ReplaceAll(s[|PlaceholderAt(s).value| + 4..], vars) == s[|PlaceholderAt(s).value| + 4..]
    decreases |s|, 0
  {
    ReplaceAllUnresolved(s[|PlaceholderAt(s).value| + 4..], vars);
  }

  /** One step of the scan over an unresolved placeholder. */
  lemma KeepPlaceholder(s: string, vars: Variables)
    requires PlaceholderAt(s).Some?
    requires forall k :: k in vars ==> vars[k] == ""
    requires ReplaceAll(s[|PlaceholderAt(s).value| + 4..], vars) == s[|PlaceholderAt(s).value| + 4..]
    ensures ReplaceAll(s, vars) == s
  {
    var key := PlaceholderAt(s).value;
    var n := |key| + 4;
    ReplaceAllAt(s, key, vars);
    PlaceholderMatched(s);
    assert Replacement(key, vars) == Placeholder(key);
    Reassemble(s, n, Replacement(key, vars), ReplaceAll(s[n..], vars), ReplaceAll(s, vars));
  }

  /** A string is its prefix followed by the matching suffix. */
  lemma Reassemble(s: string, n: nat, head: string, tail: string, whole: string)
    requires n <= |s| && head == s[..n] && tail == s[n..] && whole == head + tail
    ensures whole == s
  {
    assert s == s[..n] + s[n..];
  }

  /** The scan over a recognised placeholder. */
  lemma ReplaceAllAt(s: string, key: string, vars: Variables)
    requires PlaceholderAt(s) == Some(key)
    ensures |key| + 4 <= |s|
    ensures ReplaceAll(s, vars) == Replacement(key, vars) + ReplaceAll(s[|key| + 4..], vars)
  {
  }

  /** One step of the scan over a character that starts no placeholder. */
  lemma KeepLiteral(s: string, vars: Variables)
    requires s != [] && PlaceholderAt(s).None?
    requires ReplaceAll(s[1..], vars) == s[1..]
    ensures ReplaceAll(s, vars) == s
  {
    assert s == [s[0]] + s[1..];
  }

  /** The placeholder of any well-formed name is recognised, whatever follows. */
  lemma PlaceholderRecognised(key: string, rest: string)
    requires |key| >= 1 && AllWordChars(key)
    ensures PlaceholderAt(Placeholder(key) + rest) == Some(key)
  {
    var s := Placeholder(key) + rest;
    assert s[2..] == key + ("}}" + rest);
    WordRunOf(key, "}}" + rest);
    var n := WordRun(s[2..]);
    assert s[2..n + 2] == key;
  }

  /** A placeholder is replaced and its replacement is not scanned again:
      scanning resumes right after the placeholder. */
  lemma ReplaceAllPlaceholder(key: string, rest: string, vars: Variables)
    requires |key| >= 1 && AllWordChars(key)
    ensures ReplaceAll(Placeholder(key) + rest, vars) == Replacement(key, vars) + ReplaceAll(rest, vars)
  {
    var s := Placeholder(key) + rest;
    PlaceholderRecognised(key, rest);
    assert s[|key| + 4..] == rest;
  }

  /** Past its first character a placeholder holds no opening brace. */
  lemma PlaceholderInner(key: string, i: nat)
    requires AllWordChars(key)
    requires 2 <= i < |key| + 4
    ensures Placeholder(key)[i] != '{'
  {
    if i < |key| + 2 {
      assert Placeholder(key)[i] == key[i - 2];
    }
  }

  /** No placeholder match starts inside a placeholder-free text `u` and runs
      into a following text that itself opens with `{{`. */
  lemma NoMatchAcross(u: string, t: string)
    requires |u| >= 1 && PlaceholderAt(u).None?
    requires |t| >= 2 && t[0] == '{' && t[1] == '{'
    ensures PlaceholderAt(u + t).None?
  {
    var s := u + t;
    match PlaceholderAt(s)
    case None =>
    case Some(key) =>
      PlaceholderMatched(s);
      var m := |key| + 4;
      if m <= |u| {
        assert u == Placeholder(key) + u[m..] by {
          assert u[..m] == s[..m];
        }
        PlaceholderRecognised(key, u[m..]);
        assert false;
      } else {
        var i := if |u| == 1 then 2 else |u|;
        PlaceholderInner(key, i);
        assert false;
      }
  }

  /** Dropping the first character keeps a text free of placeholders. */
  lemma NoPlaceholderTail(s: string)
    requires s != [] && NoPlaceholder(s)
    ensures PlaceholderAt(s).None? && NoPlaceholder(s[1..])
  {
    assert s[0..] == s;
    forall i | 0 <= i <= |s[1..]| ensures PlaceholderAt(s[1..][i..]).None? {
      assert s[1..][i..] == s[i + 1..];
    }
  }

  /** Where no placeholder starts, the first character is copied. */
  lemma ReplaceAllLiteralStep(lit: string, t: string, vars: Variables)
    requires lit != [] && PlaceholderAt(lit + t).None?
    ensures ReplaceAll(lit + t, vars) == [lit[0]] + ReplaceAll(lit[1..] + t, vars)
  {
    assert (lit + t)[1..] == lit[1..] + t;
  }

  lemma PrependFirst(lit: string, x: string, y: string)
    requires lit != [] && y == lit[1..] + x
    ensures [lit[0]] + y == lit + x
  {
    assert lit == [lit[0]] + lit[1..];
  }

  /** One copied character in front of a text already known to be copied. */
  lemma ReplaceAllCons(lit: string, t: string, vars: Variables)
    requires lit != [] && PlaceholderAt(lit + t).None?
    requires ReplaceAll(lit[1..] + t, vars) == lit[1..] + ReplaceAll(t, vars)
    ensures ReplaceAll(lit + t, vars) == lit + ReplaceAll(t, vars)
  {
    ReplaceAllLiteralStep(lit, t, vars);
    PrependFirst(lit, ReplaceAll(t, vars), ReplaceAll(lit[1..] + t, vars));
  }

  /** A placeholder-free text in front of a placeholder (or at the end) is
      copied unchanged. */
  lemma {:induction false} ReplaceAllLiteralPrefix(lit: string, t: string, vars: Variables)
    requires NoPlaceholder(lit)
    requires t == [] || (|t| >= 2 && t[0] == '{' && t[1] == '{')
    ensures ReplaceAll(lit + t, vars) == lit + ReplaceAll(t, vars)
    decreases |lit|
  {
    if t == [] {
      assert lit + t == lit;
      ReplaceAllNoPlaceholder(lit, vars);
    } else if lit != [] {
      NoPlaceholderTail(lit);
      NoMatchAcross(lit, t);
      ReplaceAllLiteralPrefix(lit[1..], t, vars);
      ReplaceAllCons(lit, t, vars);
    } else {
      assert lit + t == t;
    }
  }

  /** A string written as literal text interleaved with placeholders:
      `lead {{k1}} text1 {{k2}} text2 …`. */
  function Render(lead: string, parts: seq<(string, string)>): string
    decreases |parts|
  {
    if parts == [] then lead
    else lead + Placeholder(parts[0].0) + Render(parts[0].1, parts[1..])
  }

  /** The same string with every placeholder replaced by its replacement. */
  function Fill(lead: string, parts: seq<(string, string)>, vars: Variables): string
    decreases |parts|
  {
    if parts == [] then lead
    else lead + Replacement(parts[0].0, vars) + Fill(parts[0].1, parts[1..], vars)
  }

  /** The texts carry no placeholder and the names are well formed. */
  predicate WellFormedParts(lead: string, parts: seq<(string, string)>) {
    && NoPlaceholder(lead)
    && forall i :: 0 <= i < |parts| ==>
         |parts[i].0| >= 1 && AllWordChars(parts[i].0) && NoPlaceholder(parts[i].1)
  }

  lemma WellFormedPartsTail(lead: string, parts: seq<(string, string)>)
    requires parts != [] && WellFormedParts(lead, parts)
    ensures |parts[0].0| >= 1 && AllWordChars(parts[0].0)
    ensures WellFormedParts(parts[0].1, parts[1..])
  {
    forall i | 0 <= i < |parts[1..]|
      ensures |parts[1..][i].0| >= 1 && AllWordChars(parts[1..][i].0) && NoPlaceholder(parts[1..][i].1)
    {
      assert parts[1..][i] == parts[i + 1];
    }
  }

  /** Every placeholder `{{k}}` is replaced by `variables[k]` when that is
      truthy and left literally otherwise, and every other character is kept. */
  lemma {:induction false} ReplaceAllFills(lead: string, parts: seq<(string, string)>, vars: Variables)
    requires WellFormedParts(lead, parts)
    ensures ReplaceAll(Render(lead, parts), vars) == Fill(lead, parts, vars)
    decreases |parts|
  {
    if parts == [] {
      ReplaceAllNoPlaceholder(lead, vars);
    } else {
      var k, text := parts[0].0, parts[0].1;
      WellFormedPartsTail(lead, parts);
      var tail := Render(text, parts[1..]);
      var t := Placeholder(k) + tail;
      calc {
        ReplaceAll(Render(lead, parts), vars);
        { RenderCons(lead, parts); }
        ReplaceAll(lead + t, vars);
        { ReplaceAllLiteralPrefix(lead, t, vars); }
        lead + ReplaceAll(t, vars);
        { ReplaceAllPlaceholder(k, tail, vars); }
        lead + (Replacement(k, vars) + ReplaceAll(tail, vars));
        { ReplaceAllFills(text, parts[1..], vars); }
        lead + (Replacement(k, vars) + Fill(text, parts[1..], vars));
        { FillCons(lead, parts, vars); }
        Fill(lead, parts, vars);
      }
    }
  }

  lemma RenderCons(lead: string, parts: seq<(string, string)>)
    requires parts != []
    ensures Render(lead, parts) == lead + (Placeholder(parts[0].0) + Render(parts[0].1, parts[1..]))
  {
  }

  lemma FillCons(lead: string, parts: seq<(string, string)>, vars: Variables)
    requires parts != []
    ensures Fill(lead, parts, vars) == lead + (Replacement(parts[0].0, vars) + Fill(parts[0].1, parts[1..], vars))
  {
  }

  /** Replacing again changes nothing once no placeholder is left. */
  lemma ReplaceAllIdempotent(s: string, vars: Variables)
    requires NoPlaceholder(ReplaceAll(s, vars))
    ensures ReplaceAll(ReplaceAll(s, vars), vars) == ReplaceAll(s, vars)
  {
    ReplaceAllNoPlaceholder(ReplaceAll(s, vars), vars);
  }

  /** `b` has the shape of `a`: scalars other than strings are equal, strings
      stay strings, arrays keep their length and objects their key sequence,
      and children have the shape of the children at the same position. */
  predicate SameShape(a: Json, b: Json)
    decreases a
  {
    match a
    case JStr(_) => b.JStr?
    case JArr(xs) =>
      b.JArr? && |b.items| == |xs| &&
      forall i :: 0 <= i < |xs| ==> SameShape(xs[i], b.items[i])
    case JObj(es) =>
      b.JObj? && |b.entries| == |es| &&
      forall i :: 0 <= i < |es| ==> b.entries[i].0 == es[i].0 && SameShape(es[i].1, b.entries[i].1)
    case _ => b == a
  }

  /** No string anywhere in the value holds a placeholder (object keys are
      never substituted, so they are not looked at). */
  predicate NoPlaceholders(j: Json)
    decreases j
  {
    match j
    case JStr(s) => NoPlaceholder(s)
    case JArr(xs) => forall i :: 0 <= i < |xs| ==> NoPlaceholders(xs[i])
    case JObj(es) => forall i :: 0 <= i < |es| ==> NoPlaceholders(es[i].1)
    case _ => true
  }

  /** `substituteVariables(obj, variables)` */
  function Substitute(j: Json, vars: Variables): (r: Json)
    ensures SameShape(j, r)
    decreases j, 2
  {
    match j
    case JStr(s) => JStr(ReplaceAll(s, vars))
    case JArr(xs) => JArr(SubstituteItems(xs, vars))
    case JObj(es) => JObj(SubstituteEntries(es, vars))
    case _ => j
  }

  /** `obj.map(item => this.substituteVariables(item, variables))` */
  function SubstituteItems(xs: seq<Json>, vars: Variables): (r: seq<Json>)
    ensures |r| == |xs|
    ensures forall i :: 0 <= i < |xs| ==> r[i] == Substitute(xs[i], vars) && SameShape(xs[i], r[i])
    decreases xs, 0
  {
    if xs == [] then []
    else [Substitute(xs[0], vars)] + SubstituteItems(xs[1..], vars)
  }

  /** `result[key] = this.substituteVariables(value, variables)` for one
      entry: the key is kept, the value substituted. */
  function SubstituteEntry(e: (string, Json), vars: Variables): (r: (string, Json))
    ensures r.0 == e.0 && SameShape(e.1, r.1)
    decreases e, 1
  {
    (e.0, Substitute(e.1, vars))
  }

  /** The loop over `Object.entries(obj)`, in entry order. */
  function SubstituteEntries(es: seq<(string, Json)>, vars: Variables): (r: seq<(string, Json)>)
    ensures |r| == |es|
    ensures forall i :: 0 <= i < |es| ==>
      r[i] == SubstituteEntry(es[i], vars) && r[i].0 == es[i].0 && SameShape(es[i].1, r[i].1)
    decreases es, 0
  {
    if es == [] then []
    else [SubstituteEntry(es[0], vars)] + SubstituteEntries(es[1..], vars)
  }

  /** A value whose strings hold no placeholder is returned unchanged,
      whatever the variables. */
  lemma {:induction false} SubstituteNoPlaceholders(j: Json, vars: Variables)
    requires NoPlaceholders(j)
    ensures Substitute(j, vars) == j
    decreases j
  {
    match j
    case JStr(s) =>
      ReplaceAllNoPlaceholder(s, vars);
    case JArr(xs) =>
      forall i | 0 <= i < |xs| ensures Substitute(xs[i], vars) == xs[i] {
        SubstituteNoPlaceholders(xs[i], vars);
      }
      assert SubstituteItems(xs, vars) == xs;
    case JObj(es) =>
      forall i | 0 <= i < |es| ensures Substitute(es[i].1, vars) == es[i].1 {
        SubstituteNoPlaceholders(es[i].1, vars);
      }
      assert SubstituteEntries(es, vars) == es;
    case _ =>
  }

  /** With no truthy variable (in particular with no variables at all) the
      value is returned unchanged. */
  lemma {:induction false} SubstituteUnresolved(j: Json, vars: Variables)
    requires forall k :: k in vars ==> vars[k] == ""
    ensures Substitute(j, vars) == j
    decreases j
  {
    match j
    case JStr(s) =>
      ReplaceAllUnresolved(s, vars);
    case JArr(xs) =>
      forall i | 0 <= i < |xs| ensures Substitute(xs[i], vars) == xs[i] {
        SubstituteUnresolved(xs[i], vars);
      }
      assert SubstituteItems(xs, vars) == xs;
    case JObj(es) =>
      forall i | 0 <= i < |es| ensures Substitute(es[i].1, vars) == es[i].1 {
        SubstituteUnresolved(es[i].1, vars);
      }
      assert SubstituteEntries(es, vars) == es;
    case _ =>
  }

  /** Substituting again changes nothing once no placeholder is left. */
  lemma SubstituteIdempotent(j: Json, vars: Variables)
    requires NoPlaceholders(Substitute(j, vars))
    ensures Substitute(Substitute(j, vars), vars) == Substitute(j, vars)
  {
    SubstituteNoPlaceholders(Substitute(j, vars), vars);
  }
}
