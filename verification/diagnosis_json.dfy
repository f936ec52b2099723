/**
  Parsing of a model's reply: `internal/llm/provider.go`, lines 68-99.
  The JSON decoder is a parameter: any function from text to an optional diagnosis.
 */
module DiagnosisJson {
  import opened Wrappers
  import opened Text

  datatype Diagnosis = Diagnosis(rootCause: string, severity: string, recommendedFix: string, model: string)

  type Decoder = string -> Option<Diagnosis>

  predicate IsSeverity(s: string) {
    s == "low" || s == "medium" || s == "high" || s == "critical"
  }

  function Normalize(d: Diagnosis): (r: Diagnosis)
    ensures IsSeverity(r.severity)
    ensures r.(severity := d.severity) == d
  {
    var severity := ToLower(TrimSpace(d.severity));
    d.(severity := if IsSeverity(severity) then severity else "medium")
  }

  /** The text from the first opening brace to the last closing one. */
  function BracedPart(s: string): Option<string> {
    var i, j := IndexOf(s, '{'), LastIndexOf(s, '}');
    if i < j < |s| then Some(s[i..j + 1]) else None
  }

  /** None is the parse error. */
  function ParseDiagnosisJSON(decode: Decoder, raw: string): (r: Option<Diagnosis>)
    ensures r.Some? ==> IsSeverity(r.value.severity)
  {
    var text := TrimSpace(raw);
    var d := decode(text);
    if d.Some? then Some(Normalize(d.value))
    else
      var part := BracedPart(text);
      if part.None? then None
      else
        var d2 := decode(part.value);
        if d2.Some? then Some(Normalize(d2.value)) else None
  }

  lemma TrimLeftKeeps(a: string, rest: string) returns (x: nat)
    requires rest != "" && !IsSpace(rest[0])
    ensures x <= |a| && TrimLeft(a + rest) == a[x..] + rest
  {
    var s := a + rest;
    x := |s| - |TrimLeft(s)|;
    assert s[|a|] == rest[0];
    assert x <= |a|;
    assert s[x..] == a[x..] + rest;
  }

  lemma TrimRightKeeps(front: string, b: string) returns (y: nat)
    requires front != "" && !IsSpace(front[|front| - 1])
    ensures y <= |b| && TrimRight(front + b) == front + b[..y]
  {
    var s := front + b;
    assert s[|front| - 1] == front[|front| - 1];
    assert |front| <= |TrimRight(s)|;
    y := |TrimRight(s)| - |front|;
    assert s[..|front| + y] == front + b[..y];
  }

  lemma TrimLeftOfSpaces(a: string, rest: string)
    requires AllSpaces(a) && rest != "" && !IsSpace(rest[0])
    ensures TrimLeft(a + rest) == rest
  {
    var x := TrimLeftKeeps(a, rest);
    assert x == |a|;
    assert a[x..] + rest == rest;
  }

  lemma TrimRightOfSpaces(front: string, b: string)
    requires AllSpaces(b) && front != "" && !IsSpace(front[|front| - 1])
    ensures TrimRight(front + b) == front
  {
    var y := TrimRightKeeps(front, b);
    assert y == 0;
    assert front + b[..y] == front;
  }

  lemma SpacesAreTrimmed(a: string, m: string, b: string)
    requires m != "" && !IsSpace(m[0]) && !IsSpace(m[|m| - 1]) && AllSpaces(a) && AllSpaces(b)
    ensures TrimSpace(a + m + b) == m
  {
    assert a + m + b == a + (m + b);
    TrimLeftOfSpaces(a, m + b);
    TrimRightOfSpaces(m, b);
  }

  /** Spaces around a severity and its case do not matter; whatever is not a severity counts as medium. */
  lemma NormalizeReadsSeverity(d: Diagnosis, a: string, m: string, b: string)
    requires d.severity == a + m + b && m != "" && !IsSpace(m[0]) && !IsSpace(m[|m| - 1])
    requires AllSpaces(a) && AllSpaces(b)
    ensures Normalize(d) == d.(severity := if IsSeverity(ToLower(m)) then ToLower(m) else "medium")
  {
    SpacesAreTrimmed(a, m, b);
  }

  /** The small letter itself, its capital, or one of the two other characters whose small letter it is. */
  predicate IsFormOf(c: char, small: char) {
    || c == small
    || ('A' <= c <= 'Z' && small as int - c as int == 'a' as int - 'A' as int)
    || (c == '\U{130}' && small == 'i')
    || (c == '\U{212A}' && small == 'k')
  }

  predicate IsFormOfWord(m: string, word: string) {
    |m| == |word| && forall i :: 0 <= i < |m| ==> IsFormOf(m[i], word[i])
  }

  /** The word, in capital letters, small ones or both, with any space around it. */
  ghost predicate Spells(s: string, word: string) {
    exists a, m, b :: s == a + m + b && AllSpaces(a) && AllSpaces(b) && IsFormOfWord(m, word)
  }

  lemma FormsAreLowered(m: string, word: string)
    requires IsLower(word)
    ensures ToLower(m) == word <==> IsFormOfWord(m, word)
  {
    if IsFormOfWord(m, word) {
      assert ToLower(m) == word;
    } else if |m| == |word| {
      var i :| 0 <= i < |m| && !IsFormOf(m[i], word[i]);
      assert ToLower(m)[i] != word[i];
    }
  }

  lemma ReadIsSpelled(s: string, word: string)
    requires IsLower(word) && ToLower(TrimSpace(s)) == word
    ensures Spells(s, word)
  {
    FormsAreLowered(TrimSpace(s), word);
    var before, after := TrimSpaceIsPart(s);
  }

  lemma SpelledIsRead(s: string, word: string)
    requires IsLower(word) && Spells(s, word)
    ensures ToLower(TrimSpace(s)) == word
  {
    var a, m, b :| s == a + m + b && AllSpaces(a) && AllSpaces(b) && IsFormOfWord(m, word);
    FormsAreLowered(m, word);
    assert IsFormOf(m[0], word[0]) && IsFormOf(m[|m| - 1], word[|m| - 1]);
    SpacesAreTrimmed(a, m, b);
  }

  /**
    A severity is read exactly when it is spelled, whatever its case and the space around it; any
    other text, a blank one included, counts as medium.
   */
  lemma SeverityIsRead(d: Diagnosis, word: string)
    requires IsSeverity(word)
    ensures Normalize(d).severity == word <==>
              || Spells(d.severity, word)
              || (word == "medium" && forall other | IsSeverity(other) :: !Spells(d.severity, other))
  {
    forall other | IsSeverity(other)
      ensures IsLower(other) && (ToLower(TrimSpace(d.severity)) == other <==> Spells(d.severity, other))
    {
      SeverityIsLower(other);
      if ToLower(TrimSpace(d.severity)) == other {
        ReadIsSpelled(d.severity, other);
      } else if Spells(d.severity, other) {
        SpelledIsRead(d.severity, other);
      }
    }
  }

  /** TrimSpace keeps everything between two characters that are not spaces. */
  lemma TrimSpaceKeepsMiddle(a: string, m: string, b: string) returns (x: nat, y: nat)
    requires m != "" && !IsSpace(m[0]) && !IsSpace(m[|m| - 1])
    ensures x <= |a| && y <= |b| && TrimSpace(a + m + b) == a[x..] + m + b[..y]
  {
    assert a + m + b == a + (m + b);
    x := TrimLeftKeeps(a, m + b);
    assert a[x..] + (m + b) == a[x..] + m + b;
    y := TrimRightKeeps(a[x..] + m, b);
  }

  /** The braces of an object embedded in brace-free prose delimit that object. */
  lemma BracedPartOfProse(a: string, json: string, b: string)
    requires |json| >= 2 && json[0] == '{' && json[|json| - 1] == '}'
    requires '{' !in a && '}' !in b
    ensures BracedPart(a + json + b) == Some(json)
  {
    var s := a + json + b;
    assert s == a + ['{'] + (json[1..] + b);
    IndexAfterPrefix(a, '{', json[1..] + b);
    var k := |a| + |json| - 1;
    assert s[k] == '}' && s[k + 1..] == b;
    LastIndexIsUnique(s, '}', k);
    assert s[|a|..k + 1] == json;
  }

  /** A reply that wraps one object in prose is read as that object alone would be. */
  lemma WrappedObjectIsRecovered(decode: Decoder, a: string, json: string, b: string)
    requires |json| >= 2 && json[0] == '{' && json[|json| - 1] == '}'
    requires '{' !in a && '}' !in b
    requires decode(TrimSpace(a + json + b)).None?
    ensures ParseDiagnosisJSON(decode, a + json + b) == ParseDiagnosisJSON(decode, json)
  {
    BracesSurviveTrimming(a, json, b);
    BareObject(json);
  }

  lemma BracesSurviveTrimming(a: string, json: string, b: string)
    requires |json| >= 2 && json[0] == '{' && json[|json| - 1] == '}'
    requires '{' !in a && '}' !in b
    ensures BracedPart(TrimSpace(a + json + b)) == Some(json)
  {
    var x, y := TrimSpaceKeepsMiddle(a, json, b);
    BracedPartOfProse(a[x..], json, b[..y]);
  }

  lemma BareObject(json: string)
    requires |json| >= 2 && json[0] == '{' && json[|json| - 1] == '}'
    ensures TrimSpace(json) == json && BracedPart(json) == Some(json)
  {
    assert TrimLeft(json) == json && TrimRight(json) == json;
    assert "" + json + "" == json;
    BracedPartOfProse("", json, "");
  }

  /** A reply that decodes as it stands, but for surrounding space, is not searched for braces. */
  lemma WholeReplyComesFirst(decode: Decoder, raw: string)
    requires decode(TrimSpace(raw)).Some?
    ensures ParseDiagnosisJSON(decode, raw) == Some(Normalize(decode(TrimSpace(raw)).value))
  {
  }

  /** Parsing fails exactly when neither the trimmed reply nor its braced part decodes. */
  lemma ParseFailsExactlyWhenNothingDecodes(decode: Decoder, raw: string)
    ensures ParseDiagnosisJSON(decode, raw).None? <==>
            && decode(TrimSpace(raw)).None?
            && (BracedPart(TrimSpace(raw)).Some? ==> decode(BracedPart(TrimSpace(raw)).value).None?)
  {
  }

  predicate IsLower(s: string) {
    s != "" && forall i :: 0 <= i < |s| ==> 'a' <= s[i] <= 'z'
  }

  lemma SeverityIsLower(s: string)
    requires IsSeverity(s)
    ensures IsLower(s)
  {
  }

  lemma LowerStays(s: string)
    requires IsLower(s)
    ensures ToLower(s) == s && !IsSpace(s[0]) && !IsSpace(s[|s| - 1])
  {
  }

  /** One of the four severities stays as it is. */
  lemma NormalizeKeepsSeverity(d: Diagnosis)
    requires IsSeverity(d.severity)
    ensures Normalize(d) == d
  {
    SeverityIsLower(d.severity);
    LowerStays(d.severity);
    assert d.severity == "" + d.severity + "";
    NormalizeReadsSeverity(d, "", d.severity, "");
  }

  /**
    What the model meant is what is read: a diagnosis with a proper severity, encoded as an object
    and wrapped in space or in brace-free prose, comes back as it was encoded, as long as the
    decoder does not read something else into the whole reply.
   */
  lemma ReplyRoundTrip(decode: Decoder, a: string, json: string, b: string, d: Diagnosis)
    requires |json| >= 2 && json[0] == '{' && json[|json| - 1] == '}'
    requires '{' !in a && '}' !in b
    requires decode(json) == Some(d) && IsSeverity(d.severity)
    requires decode(TrimSpace(a + json + b)).Some? ==> decode(TrimSpace(a + json + b)) == Some(d)
    ensures ParseDiagnosisJSON(decode, a + json + b) == Some(d)
  {
    NormalizeKeepsSeverity(d);
    if decode(TrimSpace(a + json + b)).None? {
      WrappedObjectIsRecovered(decode, a, json, b);
      BareObject(json);
      WholeReplyComesFirst(decode, json);
    } else {
      WholeReplyComesFirst(decode, a + json + b);
    }
  }

  /** The reply contains that text, and its decoding normalizes to the result. */
  predicate IsReadFrom(decode: Decoder, raw: string, before: string, text: string, after: string,
                       r: Option<Diagnosis>)
  {
    raw == before + text + after && decode(text).Some? && r == Some(Normalize(decode(text).value))
  }

  /** No diagnosis is made up: an accepted reply contains, in one piece, the text it was decoded from. */
  lemma AcceptedTextIsInReply(decode: Decoder, raw: string) returns (before: string, text: string, after: string)
    ensures ParseDiagnosisJSON(decode, raw).Some? ==>
              IsReadFrom(decode, raw, before, text, after, ParseDiagnosisJSON(decode, raw))
  {
    before, after := TrimSpaceIsPart(raw);
    text := TrimSpace(raw);
    if decode(text).None? && BracedPart(text).Some? {
      var left, part, right := BracesArePart(text);
      Nested(before, left, part, right, after);
      before, text, after := before + left, part, right + after;
    }
  }

  lemma BracesArePart(s: string) returns (left: string, part: string, right: string)
    requires BracedPart(s).Some?
    ensures part == BracedPart(s).value && s == left + part + right
  {
    var i, j := IndexOf(s, '{'), LastIndexOf(s, '}');
    left, part, right := s[..i], s[i..j + 1], s[j + 1..];
  }

  lemma Nested(before: string, left: string, part: string, right: string, after: string)
    ensures before + (left + part + right) + after == (before + left) + part + (right + after)
  {
  }

  /**
    A reply with two objects is refused although each of them would be read alone, unless the
    decoder accepts the whole reply or all that lies between the outermost braces.
   */
  lemma TwoObjectsAreRefused(decode: Decoder, a: string, x: string, between: string, y: string, b: string)
    requires |x| >= 2 && x[0] == '{' && |y| >= 2 && y[|y| - 1] == '}'
    requires '{' !in a && '}' !in b
    requires decode(TrimSpace(a + (x + between + y) + b)).None? && decode(x + between + y).None?
    ensures ParseDiagnosisJSON(decode, a + (x + between + y) + b).None?
  {
    var json := x + between + y;
    assert json[0] == x[0] && json[|json| - 1] == y[|y| - 1];
    WrappedObjectIsRecovered(decode, a, json, b);
    BareObject(json);
    ParseFailsExactlyWhenNothingDecodes(decode, json);
  }
}
