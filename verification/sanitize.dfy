/** `setTimecodes` of App.tsx: before a result list is stored, every
    backslash-quote pair in an entry's text becomes a plain quote
    (`text.replace(/\\'/g, "'")`); entries without text are kept as they are. */
module Sanitize {
  import opened Wrappers
  import opened Types

  /** `s` contains a backslash immediately followed by a quote. */
  predicate HasEscapedQuote(s: string) {
    exists i | 0 <= i < |s| - 1 :: s[i] == '\\' && s[i + 1] == '\''
  }

  /** The global regular-expression replacement: a left-to-right scan that
      rewrites each non-overlapping backslash-quote pair to a quote. */
  function Unescape(s: string): (r: string)
    ensures |r| <= |s|
    ensures |r| < |s| <==> HasEscapedQuote(s)
    ensures |r| == |s| ==> r == s
  {
    if |s| >= 2 && s[0] == '\\' && s[1] == '\'' then
      assert s[0] == '\\' && s[0 + 1] == '\'';
      "'" + Unescape(s[2..])
    else if s == [] then []
    else
      var rest := Unescape(s[1..]);
      assert HasEscapedQuote(s[1..]) ==> HasEscapedQuote(s) by {
        if HasEscapedQuote(s[1..]) {
          var i :| 0 <= i < |s[1..]| - 1 && s[1..][i] == '\\' && s[1..][i + 1] == '\'';
          assert s[i + 1] == '\\' && s[i + 1 + 1] == '\'';
        }
      }
      assert HasEscapedQuote(s) ==> HasEscapedQuote(s[1..]) by {
        if HasEscapedQuote(s) {
          var i :| 0 <= i < |s| - 1 && s[i] == '\\' && s[i + 1] == '\'';
          assert i != 0;
          assert s[1..][i - 1] == '\\' && s[1..][i - 1 + 1] == '\'';
        }
      }
      [s[0]] + rest
  }

  /** The escaping the sanitiser undoes: every quote gets a backslash in
      front of it. */
  function Escape(t: string): (r: string)
    ensures |r| >= |t|
    ensures r == [] <==> t == []
    ensures r != [] ==> r[0] != '\''
  {
    if t == [] then []
    else if t[0] == '\'' then "\\'" + Escape(t[1..])
    else [t[0]] + Escape(t[1..])
  }

  /** Sanitising undoes escaping, whatever the text (backslashes in the
      original text included). */
  lemma {:induction false} UnescapeEscape(t: string)
    ensures Unescape(Escape(t)) == t
  {
    if t != [] {
      var e := Escape(t[1..]);
      UnescapeEscape(t[1..]);
      if t[0] == '\'' {
        UnescapeQuoteStep(e);
      } else {
        UnescapeOtherStep(t[0], e);
      }
      assert t == [t[0]] + t[1..];
    }
  }

  /** An escaped quote in front becomes a quote. */
  lemma UnescapeQuoteStep(e: string)
    ensures Unescape("\\'" + e) == "'" + Unescape(e)
  {
    var s := "\\'" + e;
    assert s[2..] == e;
  }

  /** Any other first character is kept, unless it starts an escaped
      quote. */
  lemma UnescapeOtherStep(c: char, e: string)
    requires !(c == '\\' && |e| > 0 && e[0] == '\'')
    ensures Unescape([c] + e) == [c] + Unescape(e)
  {
    var s := [c] + e;
    assert s[1..] == e;
    assert !(|s| >= 2 && s[0] == '\\' && s[1] == '\'');
  }

  /** The stored form of one entry: only its text can change, it never
      grows, and a text without an escaped quote is kept as it is. */
  function SanitizeEntry(t: Timecode): (r: Timecode)
    ensures r.time == t.time && r.objects == t.objects && r.value == t.value
    ensures r.text.Some? <==> t.text.Some?
    ensures t.text.Some? ==> |r.text.value| <= |t.text.value|
    ensures t.text.None? || !HasEscapedQuote(t.text.value) ==> r == t
  {
    match t.text
    case Some(x) => t.(text := Some(Unescape(x)))
    case None => t
  }

  /** `setTimecodes(timecodes)`: the list that reaches `timecodeList`. Only
      the texts change, none grows, and the entries keep their order. */
  function SanitizeTimecodes(ts: seq<Timecode>): (r: seq<Timecode>)
    ensures |r| == |ts|
    ensures forall i | 0 <= i < |ts| ::
      && r[i].time == ts[i].time && r[i].objects == ts[i].objects && r[i].value == ts[i].value
      && (r[i].text.Some? <==> ts[i].text.Some?)
      && (ts[i].text.Some? ==> |r[i].text.value| <= |ts[i].text.value|)
      && (ts[i].text.Some? && !HasEscapedQuote(ts[i].text.value) ==> r[i] == ts[i])
  {
    seq(|ts|, i requires 0 <= i < |ts| => SanitizeEntry(ts[i]))
  }

  /** Escapes the text of every entry that has one. */
  function EscapeTimecodes(ts: seq<Timecode>): (r: seq<Timecode>)
    ensures |r| == |ts|
  {
    seq(|ts|, i requires 0 <= i < |ts| =>
      if ts[i].text.Some? then ts[i].(text := Some(Escape(ts[i].text.value))) else ts[i])
  }

  /** A list whose texts were escaped is stored exactly as it was before
      escaping. */
  lemma SanitizeUndoesEscaping(ts: seq<Timecode>)
    ensures SanitizeTimecodes(EscapeTimecodes(ts)) == ts
  {
    var r := SanitizeTimecodes(EscapeTimecodes(ts));
    forall i | 0 <= i < |ts|
      ensures r[i] == ts[i]
    {
      if ts[i].text.Some? {
        UnescapeEscape(ts[i].text.value);
      }
    }
  }
}
