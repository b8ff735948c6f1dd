/** Text helpers: JavaScript truthiness of an optional string and `String.prototype.trim`. */
module Text {
  import opened Wrappers

  /** A JavaScript string value is truthy exactly when it is present and non-empty */
  predicate Truthy(s: Option<string>) {
    s.Some? && s.value != ""
  }

  /** The whitespace characters `trim` removes, restricted to the ASCII ones */
  predicate IsWhitespace(c: char) {
    c == ' ' || c == '\t' || c == '\n' || c == '\r' || c == '\U{000B}' || c == '\U{000C}'
  }

  predicate AllWhitespace(s: string) {
    forall i :: 0 <= i < |s| ==> IsWhitespace(s[i])
  }

  /** Number of whitespace characters at the start of `s` */
  function LeadingSpace(s: string): (n: nat)
    ensures n <= |s|
    ensures forall i :: 0 <= i < n ==> IsWhitespace(s[i])
    ensures n < |s| ==> !IsWhitespace(s[n])
  {
    if |s| > 0 && IsWhitespace(s[0]) then 1 + LeadingSpace(s[1..]) else 0
  }

  /** Number of whitespace characters at the end of `s` */
  function TrailingSpace(s: string): (n: nat)
    ensures n <= |s|
    ensures forall i :: |s| - n <= i < |s| ==> IsWhitespace(s[i])
    ensures n < |s| ==> !IsWhitespace(s[|s| - n - 1])
  {
    if |s| > 0 && IsWhitespace(s[|s| - 1]) then 1 + TrailingSpace(s[..|s| - 1]) else 0
  }

  /** `s` with leading and trailing whitespace removed */
  function Trim(s: string): (r: string)
    ensures AllWhitespace(s) <==> r == ""
    ensures r != "" ==> !IsWhitespace(r[0]) && !IsWhitespace(r[|r| - 1])
    ensures LeadingSpace(s) + |r| <= |s|
    ensures AllWhitespace(s[..LeadingSpace(s)])
    ensures s[LeadingSpace(s)..] == r + s[LeadingSpace(s) + |r|..]
    ensures AllWhitespace(s[LeadingSpace(s) + |r|..])
  {
    var lead := LeadingSpace(s);
    if lead == |s| then "" else s[lead..|s| - TrailingSpace(s)]
  }

  /** Trimming is characterised by its result: whitespace around a string
      whose ends are not whitespace is exactly what `Trim` removes. */
  lemma {:induction false} TrimUnique(pre: string, t: string, post: string)
    requires AllWhitespace(pre) && AllWhitespace(post)
    requires t != "" ==> !IsWhitespace(t[0]) && !IsWhitespace(t[|t| - 1])
    ensures Trim(pre + t + post) == t
  {
    var s := pre + t + post;
    if t == "" {
      assert s == pre + post;
      assert forall i :: 0 <= i < |s| ==> IsWhitespace(s[i]) by {
        forall i | 0 <= i < |s| ensures IsWhitespace(s[i]) {
          if i < |pre| { assert s[i] == pre[i]; } else { assert s[i] == post[i - |pre|]; }
        }
      }
    } else {
      assert s[|pre|] == t[0];
      assert forall i :: 0 <= i < |pre| ==> s[i] == pre[i];
      var lead := LeadingSpace(s);
      assert lead == |pre|;
      var last := |pre| + |t| - 1;
      assert s[last] == t[|t| - 1];
      assert forall i :: last < i < |s| ==> s[i] == post[i - |pre| - |t|];
      assert TrailingSpace(s) == |post|;
      assert s[|pre|..|s| - |post|] == t;
    }
  }

  /** Trimming twice is the same as trimming once */
  lemma TrimIdempotent(s: string)
    ensures Trim(Trim(s)) == Trim(s)
  {
  }
}
