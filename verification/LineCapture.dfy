/** The bounded push buffer (push.go:36-75). */
module LineCaptures {
  import opened Common
  import opened Records

  const MAX_BUFFER_SIZE: nat := 10_000

  /** unicode.IsSpace, which bytes.TrimSpace uses. */
  predicate IsSpace(c: char) {
    c in {'\t', '\n', '\U{000B}', '\U{000C}', '\r', ' ', '\U{0085}', '\U{00A0}', '\U{1680}',
          '\U{2028}', '\U{2029}', '\U{202F}', '\U{205F}', '\U{3000}'}
    || '\U{2000}' <= c <= '\U{200A}'
  }

  function TrimLeft(s: string): (r: string) {
    if s != [] && IsSpace(s[0]) then TrimLeft(s[1..]) else s
  }

  function TrimRight(s: string): (r: string) {
    if s != [] && IsSpace(s[|s| - 1]) then TrimRight(s[..|s| - 1]) else s
  }

  function TrimSpace(s: string): (r: string) {
    TrimRight(TrimLeft(s))
  }

  ghost predicate AllSpace(s: string) {
    forall i :: 0 <= i < |s| ==> IsSpace(s[i])
  }

  lemma {:induction false} TrimLeftSplits(s: string) returns (lead: string)
    ensures s == lead + TrimLeft(s) && AllSpace(lead)
    ensures TrimLeft(s) != [] ==> !IsSpace(TrimLeft(s)[0])
  {
    lead := [];
    if s != [] && IsSpace(s[0]) {
      var l := TrimLeftSplits(s[1..]);
      lead := [s[0]] + l;
    }
  }

  lemma {:induction false} TrimRightSplits(s: string) returns (tail: string)
    ensures s == TrimRight(s) + tail && AllSpace(tail)
    ensures TrimRight(s) != [] ==> !IsSpace(TrimRight(s)[|TrimRight(s)| - 1])
  {
    tail := [];
    if s != [] && IsSpace(s[|s| - 1]) {
      var t := TrimRightSplits(s[..|s| - 1]);
      tail := t + [s[|s| - 1]];
    }
  }

  /** TrimSpace removes white space only, at both ends, and all of it. */
  lemma TrimSpaceIsMaximal(s: string) returns (lead: string, tail: string)
    ensures s == lead + TrimSpace(s) + tail && AllSpace(lead) && AllSpace(tail)
    ensures TrimSpace(s) != [] ==>
              !IsSpace(TrimSpace(s)[0]) && !IsSpace(TrimSpace(s)[|TrimSpace(s)| - 1])
  {
    lead := TrimLeftSplits(s);
    tail := TrimRightSplits(TrimLeft(s));
    assert s == lead + (TrimSpace(s) + tail);
    if TrimSpace(s) != [] {
      assert TrimLeft(s)[0] == TrimSpace(s)[0];
    }
  }

  /** Only lines whose first non-blank character opens a JSON object are captured. */
  predicate IsCaptured(p: Line) {
    var t := TrimSpace(p.text);
    |t| > 0 && t[0] == '{'
  }

  function Trimmed(p: Line): (l: Line) {
    p.(text := TrimSpace(p.text))
  }

  /** White space is Unicode's: these code points and no others. */
  lemma WhiteSpaceIsUnicodes(c: char)
    ensures IsSpace(c) <==>
      var n := c as int;
      9 <= n <= 13 || 0x2000 <= n <= 0x200A || n in {0x20, 0x85, 0xA0, 0x1680, 0x2028, 0x2029, 0x202F, 0x205F, 0x3000}
  {
  }

  /** The first character that is not white space opens a JSON object. */
  ghost predicate OpensObject(text: string) {
    exists i :: 0 <= i < |text| && text[i] == '{' && AllSpace(text[..i])
  }

  /** t is s without the white space around it. */
  ghost predicate IsTrimOf(t: string, s: string) {
    && (exists lead, tail :: s == lead + t + tail && AllSpace(lead) && AllSpace(tail))
    && t != [] && !IsSpace(t[0]) && !IsSpace(t[|t| - 1])
  }

  lemma FirstNonSpaceIsUnique(s: string, i: nat, j: nat)
    requires i < |s| && AllSpace(s[..i]) && !IsSpace(s[i])
    requires j < |s| && AllSpace(s[..j]) && !IsSpace(s[j])
    ensures i == j
  {
    assert forall k :: 0 <= k < i ==> s[..i][k] == s[k];
    assert forall k :: 0 <= k < j ==> s[..j][k] == s[k];
  }

  /** A line is captured exactly when it opens an object, and then with its id and its trimmed text. */
  lemma CapturedExactly(p: Line)
    ensures IsCaptured(p) <==> OpensObject(p.text)
    ensures IsCaptured(p) ==> Trimmed(p).eventID == p.eventID && IsTrimOf(Trimmed(p).text, p.text)
  {
    var lead, tail := TrimSpaceIsMaximal(p.text);
    var t := TrimSpace(p.text);
    assert p.text == lead + t + tail;
    if t != [] {
      assert p.text[|lead|] == t[0] && p.text[..|lead|] == lead;
      forall i | 0 <= i < |p.text| && p.text[i] == '{' && AllSpace(p.text[..i]) ensures i == |lead| {
        FirstNonSpaceIsUnique(p.text, i, |lead|);
      }
    } else {
      forall i | 0 <= i < |p.text| ensures IsSpace(p.text[i]) {
        assert p.text[i] == (lead + tail)[i];
      }
    }
  }

  /** What the stdout writer reported; Write hands it on unchanged. */
  datatype WriteResult = WriteResult(n: int, failed: bool)

  class LineCapture {
    var stdout: seq<string>
    var buf: seq<Line>

    constructor ()
      ensures stdout == [] && buf == []
    {
      stdout, buf := [], [];
    }

    /** Every line goes to stdout; JSON lines are also buffered, whatever stdout reported. */
    method Write(p: Line, reported: WriteResult) returns (result: WriteResult)
      modifies this
      ensures result == reported
      ensures stdout == old(stdout) + [p.text]
      ensures buf == if IsCaptured(p) then LastN(old(buf) + [Trimmed(p)], MAX_BUFFER_SIZE) else old(buf)
    {
      stdout := stdout + [p.text];
      result := reported;
      var trimmed := TrimSpace(p.text);
      if |trimmed| > 0 && trimmed[0] == '{' {
        if |buf| >= MAX_BUFFER_SIZE {
          var drop := |buf| - MAX_BUFFER_SIZE + 1;
          buf := buf[drop..];
        }
        buf := buf + [p.(text := trimmed)];
      }
    }

    method Flush() returns (lines: seq<Line>)
      modifies this`buf
      ensures lines == old(buf) && buf == []
    {
      lines := buf;
      buf := [];
    }

    method Rebuffer(records: seq<Line>)
      modifies this`buf
      ensures buf == LastN(records + old(buf), MAX_BUFFER_SIZE)
    {
      buf := records + buf;
      if |buf| > MAX_BUFFER_SIZE {
        buf := buf[|buf| - MAX_BUFFER_SIZE..];
      }
    }
  }
}
