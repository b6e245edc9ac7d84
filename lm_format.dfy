/** Cleaning the language model's reply before it is parsed as the intent
    record (`Speaker.format_lm_json`). The parser itself (`Api.string_to_json`)
    is not part of this model: it is a parameter that either yields a value
    or raises. */
module LmFormat {
  import opened PyValue

  /** What `format_lm_json` returns when anything in it raises. */
  const UnableMessage := "Unable to process that request."

  /** `s.replace(p, "")`: every occurrence of `p`, found left to right
      without overlapping, removed. */
  function RemoveAll(s: string, p: string): string
    requires p != []
    decreases |s|
  {
    if |s| < |p| then s
    else if s[..|p|] == p then RemoveAll(s[|p|..], p)
    else [s[0]] + RemoveAll(s[1..], p)
  }

  /** `p in s`: `p` occurs somewhere in `s`. */
  predicate Contains(s: string, p: string)
    decreases |s|
  {
    |p| <= |s| && (s[..|p|] == p || Contains(s[1..], p))
  }

  /** A string in which `p` does not occur is left as it is. */
  lemma {:induction false} RemoveAllAbsent(s: string, p: string)
    requires p != [] && !Contains(s, p)
    ensures RemoveAll(s, p) == s
  {
    if |s| >= |p| {
      RemoveAllAbsent(s[1..], p);
      assert [s[0]] + s[1..] == s;
    }
  }

  /** Removing only takes characters away: nothing new appears. */
  lemma {:induction false} RemoveAllChars(s: string, p: string)
    requires p != []
    ensures forall c :: c in RemoveAll(s, p) ==> c in s
  {
    if |s| >= |p| {
      if s[..|p|] == p {
        RemoveAllChars(s[|p|..], p);
        forall c | c in RemoveAll(s[|p|..], p) ensures c in s {
          var i :| 0 <= i < |s[|p|..]| && s[|p|..][i] == c;
          assert s[|p| + i] == c;
        }
      } else {
        RemoveAllChars(s[1..], p);
        forall c | c in RemoveAll(s[1..], p) ensures c in s {
          var i :| 0 <= i < |s[1..]| && s[1..][i] == c;
          assert s[i + 1] == c;
        }
      }
    }
  }

  /** Removing a single character removes every copy of it and keeps every
      other character, as many times as it occurs. */
  lemma {:induction false} RemoveAllChar(s: string, c: char)
    ensures c !in RemoveAll(s, [c])
    ensures forall x :: x != c ==> multiset(RemoveAll(s, [c]))[x] == multiset(s)[x]
  {
    if |s| >= 1 {
      RemoveAllChar(s[1..], c);
      assert s == [s[0]] + s[1..];
      assert s[..1] == [s[0]];
      assert multiset(s) == multiset([s[0]]) + multiset(s[1..]);
      if s[0] != c {
        assert RemoveAll(s, [c]) == [s[0]] + RemoveAll(s[1..], [c]);
        assert multiset(RemoveAll(s, [c])) == multiset([s[0]]) + multiset(RemoveAll(s[1..], [c]));
      }
    }
  }

  /** Removing a single character distributes over concatenation. */
  lemma {:induction false} RemoveCharAppend(a: string, b: string, c: char)
    ensures RemoveAll(a + b, [c]) == RemoveAll(a, [c]) + RemoveAll(b, [c])
  {
    if a != [] {
      RemoveCharAppend(a[1..], b, c);
      assert (a + b)[1..] == a[1..] + b;
      assert (a + b)[..1] == a[..1];
    } else {
      assert a + b == b;
    }
  }

  /** A leading copy of `p` is removed. */
  lemma RemoveAllLeading(p: string, s: string)
    requires p != []
    ensures RemoveAll(p + s, p) == RemoveAll(s, p)
  {
    assert (p + s)[..|p|] == p;
    assert (p + s)[|p|..] == s;
  }

  /** Python's `t[:6] == "python"`: the slice is shorter when `t` is. */
  predicate PythonTagged(t: string) {
    t[..if |t| < 6 then |t| else 6] == "python"
  }

  /** The text `format_lm_json` hands to the parser (Speaker.py:237-244):
      every backtick removed; then every "python" if the result starts with
      "python", every "json" otherwise. */
  function Strip(s: string): (r: string)
    ensures '`' !in r
  {
    var t := RemoveAll(s, "`");
    RemoveAllChar(s, '`');
    RemoveAllChars(t, "python");
    RemoveAllChars(t, "json");
    if PythonTagged(t) then RemoveAll(t, "python") else RemoveAll(t, "json")
  }

  /** What `format_lm_json` returns: the parsed value, or the fixed message
      when parsing raises. */
  function Formatted(s: string, parse: string -> Py<Value>): Value {
    match parse(Strip(s))
    case Ok(v) => v
    case Raise(_) => Str(UnableMessage)
  }

  /** `format_lm_json`, reassigning the string step by step as the source does
      (Speaker.py:226-251). */
  method FormatLmJson(s: string, parse: string -> Py<Value>) returns (r: Value)
    ensures parse(Strip(s)).Ok? ==> r == parse(Strip(s)).value
    ensures parse(Strip(s)).Raise? ==> r == Str(UnableMessage)
    ensures r == Formatted(s, parse)
  {
    var t := RemoveAll(s, "`");
    if PythonTagged(t) {
      t := RemoveAll(t, "python");
    } else {
      t := RemoveAll(t, "json");
    }
    var parsed := parse(t);
    if parsed.Raise? {
      return Str(UnableMessage);
    }
    return parsed.value;
  }

  /** Removing the backticks of a code fence leaves its contents. */
  lemma Unfence(inner: string)
    requires '`' !in inner
    ensures RemoveAll("```" + inner + "```", "`") == inner
  {
    assert RemoveAll("```", "`") == "" by {
      assert "```"[1..] == "``" && "``"[1..] == "`" && "`"[1..] == "";
    }
    RemoveCharAppend("```", inner + "```", '`');
    RemoveCharAppend(inner, "```", '`');
    NotContainsChar(inner, '`');
    RemoveAllAbsent(inner, "`");
    assert "```" + inner + "```" == "```" + (inner + "```");
  }

  /** A body fenced as "```json ... ```" comes out as the bare body, provided
      it holds no backtick and no "json" of its own. */
  lemma JsonFenceRoundTrip(body: string)
    requires '`' !in body && !Contains(body, "json")
    ensures Strip("```json" + body + "```") == body
  {
    var t := "json" + body;
    assert "```json" + body + "```" == "```" + t + "```";
    Unfence(t);
    assert t[0] == 'j';
    assert !PythonTagged(t);
    RemoveAllLeading("json", body);
    RemoveAllAbsent(body, "json");
  }

  /** A body fenced as "```python ... ```" comes out as the bare body, provided
      it holds no backtick and no "python" of its own. */
  lemma PythonFenceRoundTrip(body: string)
    requires '`' !in body && !Contains(body, "python")
    ensures Strip("```python" + body + "```") == body
  {
    var t := "python" + body;
    assert "```python" + body + "```" == "```" + t + "```";
    Unfence(t);
    assert t[..6] == "python";
    RemoveAllLeading("python", body);
    RemoveAllAbsent(body, "python");
  }

  /** A character that is not in `s` does not occur in it as a one-character string. */
  lemma {:induction false} NotContainsChar(s: string, c: char)
    requires c !in s
    ensures !Contains(s, [c])
  {
    if |s| >= 1 {
      assert s[..1] == [s[0]];
      NotContainsChar(s[1..], c);
    }
  }
}
