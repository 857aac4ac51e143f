/**
 * Answer trimming used when a search answer is shown: the text before the
 * first '[' (where the citation markers start), with whitespace stripped.
 */
module RenderContext {

  import opened Strings

  /** `re.match(r"^[^[]*", response).group(0).strip()` — the pattern always matches. */
  function GetRealResponse(response: string): (r: string)
    ensures '[' !in r
    ensures '[' !in response ==> r == Strip(response)
    ensures '[' in response ==>
      (exists k :: 0 <= k < |response| && response[k] == '[' && '[' !in response[..k] && r == Strip(response[..k]))
  {
    var prefix := BeforeFirst(response, '[');
    StripKeepsAbsent(prefix, '[');
    Strip(prefix)
  }

  /** What `render_response` shows: the stripped answer and the length of its trimmed part. */
  datatype Rendered = Rendered(shown: string, chars: nat)

  function RenderResponse(response: string): (r: Rendered)
    ensures r.shown == Strip(response)
    ensures r.chars == |GetRealResponse(response)|
  {
    var stripped := Strip(response);
    TrimAfterStripIsTrim(response);
    Rendered(stripped, |GetRealResponse(stripped)|)
  }

  /** Stripping keeps a contiguous slice of the input. */
  lemma StripSlice(s: string) returns (a: nat, b: nat)
    ensures a <= b <= |s| && Strip(s) == s[a..b]
    ensures forall i :: 0 <= i < a ==> IsSpace(s[i])
    ensures forall i :: b <= i < |s| ==> IsSpace(s[i])
  {
    var l := StripLeft(s);
    a := |s| - |l|;
    var r := StripRight(l);
    b := a + |r|;
    forall i | b <= i < |s| ensures IsSpace(s[i]) {
      assert s[i] == l[i - a];
    }
  }

  lemma StripKeepsAbsent(s: string, c: char)
    requires c !in s
    ensures c !in Strip(s)
  {
    var a, b := StripSlice(s);
    forall x | x in s[a..b] ensures x in s { }
  }

  lemma {:induction false} StripLeftOfSpaces(w: string, t: string)
    requires forall i :: 0 <= i < |w| ==> IsSpace(w[i])
    ensures StripLeft(w + t) == StripLeft(t)
  {
    if w != [] {
      assert (w + t)[1..] == w[1..] + t;
      StripLeftOfSpaces(w[1..], t);
    } else {
      assert w + t == t;
    }
  }

  lemma StripIdempotent(s: string)
    ensures Strip(Strip(s)) == Strip(s)
  {
    var l := StripLeft(s);
    var r := StripRight(l);
    if r != [] {
      assert r[0] == l[0];
    }
    assert StripLeft(r) == r;
  }

  /** The first '[' of a slice that contains the first '[' of the whole string. */
  lemma BeforeBracketOfSlice(s: string, a: nat, b: nat, p: nat)
    requires a <= p < b <= |s| && s[p] == '[' && '[' !in s[..p]
    ensures BeforeFirst(s[a..b], '[') == s[a..p]
  {
    var t := s[a..b];
    assert t[p - a] == '[';
    assert t[..p - a] == s[a..p];
  }

  /** Stripping first and trimming gives the same text as trimming the raw answer. */
  lemma TrimAfterStripIsTrim(s: string)
    ensures GetRealResponse(Strip(s)) == GetRealResponse(s)
  {
    var a, b := StripSlice(s);
    match IndexOf(s, '[')
    case None =>
      StripKeepsAbsent(s, '[');
      StripIdempotent(s);
    case Some(p) =>
      assert a <= p < b by {
        assert !IsSpace(s[p]);
      }
      RealOfSlice(s, a, b, p);
      RealAfterSpaces(s, a, p);
  }

  /** With the first '[' inside the slice, the slice trims to the text between its start and that '['. */
  lemma RealOfSlice(s: string, a: nat, b: nat, p: nat)
    requires a <= p < b <= |s| && s[p] == '[' && '[' !in s[..p]
    ensures GetRealResponse(s[a..b]) == Strip(s[a..p])
  {
    BeforeBracketOfSlice(s, a, b, p);
  }

  /** Leading white space before the first '[' does not change the trimmed answer. */
  lemma RealAfterSpaces(s: string, a: nat, p: nat)
    requires a <= p <= |s| && BeforeFirst(s, '[') == s[..p]
    requires forall i :: 0 <= i < a ==> IsSpace(s[i])
    ensures GetRealResponse(s) == Strip(s[a..p])
  {
    assert s[..p] == s[..a] + s[a..p];
    StripLeftOfSpaces(s[..a], s[a..p]);
  }

  /** Trimming twice is trimming once. */
  lemma GetRealResponseIdempotent(s: string)
    ensures GetRealResponse(GetRealResponse(s)) == GetRealResponse(s)
  {
    var p := BeforeFirst(s, '[');
    StripIdempotent(p);
  }
}
