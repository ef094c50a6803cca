/**
 * The chat input box: the text field's state and the submit guard that
 * decides whether the typed text is forwarded to the conversation.
 */
module ChatInputComponent {
  import opened Types

  /**
   * The code points ECMAScript's String.prototype.trim removes: the
   * WhiteSpace set (tab, vertical tab, form feed, space, no-break space, byte
   * order mark and every space separator) and the LineTerminator set.
   */
  const TrimmedChars: set<char> := {
    '\t', '\U{000B}', '\U{000C}', ' ', '\U{00A0}', '\U{FEFF}', '\U{1680}',
    '\U{2000}', '\U{2001}', '\U{2002}', '\U{2003}', '\U{2004}', '\U{2005}',
    '\U{2006}', '\U{2007}', '\U{2008}', '\U{2009}', '\U{200A}',
    '\U{202F}', '\U{205F}', '\U{3000}',
    '\n', '\r', '\U{2028}', '\U{2029}'
  }

  /**
   * Whether `trim` removes `c`. All such code points lie in the Basic
   * Multilingual Plane, so each is one UTF-16 code unit.
   */
  function IsWhitespace(c: char): (b: bool)
    ensures b ==> (c as int) < 0x1_0000
  {
    c in TrimmedChars
  }

  /** `s` with its leading whitespace removed. */
  function TrimStart(s: string): (r: string)
    ensures |r| <= |s| && r == s[|s| - |r|..]
    ensures forall i :: 0 <= i < |s| - |r| ==> IsWhitespace(s[i])
    ensures r != [] ==> !IsWhitespace(r[0])
  {
    if s == [] then s
    else if IsWhitespace(s[0]) then TrimStart(s[1..])
    else s
  }

  /** `s` with its trailing whitespace removed. */
  function TrimEnd(s: string): (r: string)
    ensures |r| <= |s| && r == s[..|r|]
    ensures forall i :: |r| <= i < |s| ==> IsWhitespace(s[i])
    ensures r != [] ==> !IsWhitespace(r[|r| - 1])
  {
    if s == [] then s
    else if IsWhitespace(s[|s| - 1]) then TrimEnd(s[..|s| - 1])
    else s
  }

  /** `input.trim()`: whitespace removed from both ends. */
  function Trim(s: string): (r: string)
    ensures |r| <= |s|
    ensures r != [] ==> !IsWhitespace(r[0]) && !IsWhitespace(r[|r| - 1])
  {
    var t := TrimStart(s);
    var r := TrimEnd(t);
    assert r != [] ==> r[0] == t[0];
    r
  }

  /**
   * The trimmed text is one contiguous slice of the input, and everything
   * cut off on either side is whitespace.
   */
  lemma TrimSlice(s: string) returns (lo: nat, hi: nat)
    ensures lo <= hi <= |s| && Trim(s) == s[lo..hi]
    ensures forall i :: 0 <= i < lo ==> IsWhitespace(s[i])
    ensures forall i :: hi <= i < |s| ==> IsWhitespace(s[i])
  {
    var t := TrimStart(s);
    var r := TrimEnd(t);
    lo := |s| - |t|;
    hi := lo + |r|;
    assert Trim(s) == r;
    assert r == s[lo..hi] by {
      assert t == s[lo..] && r == t[..|r|];
      forall i | 0 <= i < |r| ensures r[i] == s[lo + i] {
        assert r[i] == t[i];
      }
    }
    assert forall i :: 0 <= i < lo ==> IsWhitespace(s[i]) by {
      assert lo == |s| - |t|;
    }
    assert forall i :: hi <= i < |s| ==> IsWhitespace(s[i]) by {
      forall i | hi <= i < |s| ensures IsWhitespace(s[i]) {
        assert t == s[lo..] && s[i] == t[i - lo];
      }
    }
  }

  /** Trimming an already trimmed text changes nothing. */
  lemma TrimIdempotent(s: string)
    ensures Trim(Trim(s)) == Trim(s)
  {
    var r := Trim(s);
    assert TrimStart(r) == r;
    assert TrimEnd(r) == r;
  }

  /** The text trims to nothing exactly when every character is whitespace. */
  lemma TrimEmptyIffAllWhitespace(s: string)
    ensures Trim(s) == [] <==> forall i :: 0 <= i < |s| ==> IsWhitespace(s[i])
  {
    var lo, hi := TrimSlice(s);
    if Trim(s) == [] {
      forall i | 0 <= i < |s| ensures IsWhitespace(s[i]) {
        assert i < lo || hi <= i;
      }
    } else {
      assert !IsWhitespace(s[lo]);
    }
  }

  /** The state of the input box: the text currently in the field. */
  class ChatInput {
    var input: string

    /** The field starts empty. */
    constructor ()
      ensures input == ""
    {
      input := "";
    }

    /** The user edits the field: it now holds `value`. */
    method OnChange(value: string)
      modifies this
      ensures input == value
    {
      input := value;
    }

    /**
     * The form is submitted while the conversation's loading flag is
     * `isLoading`. The trimmed text is forwarded, and the field cleared,
     * only when it is non-empty and nothing is loading; otherwise nothing is
     * forwarded and the field keeps its text. The Option result forwards at
     * most one message per submission.
     */
    method HandleSubmit(isLoading: bool) returns (sent: Option<string>)
      modifies this
      ensures sent.Some? <==> Trim(old(input)) != "" && !isLoading
      ensures sent.Some? ==> sent.value == Trim(old(input)) && input == ""
      ensures sent.Some? ==> Trim(sent.value) == sent.value
      ensures sent.None? ==> input == old(input)
    {
      var trimmed := Trim(input);
      if trimmed != "" && !isLoading {
        TrimIdempotent(input);
        sent := Some(trimmed);
        input := "";
      } else {
        sent := None;
      }
    }
  }
}
