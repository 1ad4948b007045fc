/** Trimming, as the services do it on every free text they store or search for. */
module Text {
  import opened Prelude

  predicate Blank(c: char) {
    var n := c as int;
    || 9 <= n <= 13 || n == 0x20 || n == 0xa0 || n == 0x1680 || 0x2000 <= n <= 0x200a
    || n == 0x2028 || n == 0x2029 || n == 0x202f || n == 0x205f || n == 0x3000 || n == 0xfeff
  }

  lemma SpacesTabsAndLineEndsAreBlank()
    ensures Blank(' ') && Blank('\t') && Blank('\n') && Blank('\r') && Blank(0xa0 as char) && Blank(0xfeff as char)
    ensures forall c :: 0x21 <= c as int <= 0x7e ==> !Blank(c)
  {
  }

  function TrimStart(s: string): string {
    if s != [] && Blank(s[0]) then TrimStart(s[1..]) else s
  }

  function TrimEnd(s: string): string {
    if s != [] && Blank(s[|s| - 1]) then TrimEnd(s[..|s| - 1]) else s
  }

  function Trim(s: string): string {
    TrimEnd(TrimStart(s))
  }

  predicate NonBlank(s: string) {
    exists i :: 0 <= i < |s| && !Blank(s[i])
  }

  /** `s?.trim() || null`. */
  function TrimToOption(s: Option<string>): (r: Option<string>)
  {
    if s.Some? && Trim(s.value) != [] then Some(Trim(s.value)) else None
  }

  /** Trimming cuts nothing but blanks, and all of them, from both ends. */
  lemma {:induction false} TrimCutsTheBlankEnds(s: string) returns (start: nat, end: nat)
    ensures start <= end <= |s| && Trim(s) == s[start..end]
    ensures forall i :: 0 <= i < start || end <= i < |s| ==> Blank(s[i])
    ensures Trim(s) != [] ==> !Blank(Trim(s)[0]) && !Blank(Trim(s)[|Trim(s)| - 1])
  {
    start := StartCut(s);
    var n := EndCut(s[start..]);
    end := start + n;
    assert s[start..][..n] == s[start..end];
    assert forall i :: end <= i < |s| ==> s[i] == s[start..][i - start];
  }

  lemma {:induction false} StartCut(s: string) returns (start: nat)
    ensures start <= |s| && TrimStart(s) == s[start..]
    ensures forall i :: 0 <= i < start ==> Blank(s[i])
    ensures TrimStart(s) != [] ==> !Blank(TrimStart(s)[0])
  {
    start := 0;
    if s != [] && Blank(s[0]) {
      var n := StartCut(s[1..]);
      start := n + 1;
      assert forall i :: 1 <= i < start ==> s[i] == s[1..][i - 1];
    }
  }

  lemma {:induction false} EndCut(s: string) returns (end: nat)
    ensures end <= |s| && TrimEnd(s) == s[..end]
    ensures forall i :: end <= i < |s| ==> Blank(s[i])
    ensures TrimEnd(s) != [] ==> !Blank(TrimEnd(s)[|TrimEnd(s)| - 1])
  {
    end := |s|;
    if s != [] && Blank(s[|s| - 1]) {
      end := EndCut(s[..|s| - 1]);
      assert forall i :: end <= i < |s| - 1 ==> s[i] == s[..|s| - 1][i];
    }
  }

  /** An optional text is stored exactly when it says something, and then without blank ends. */
  lemma {:induction false} StoredTextIsNonBlank(s: Option<string>)
    ensures TrimToOption(s).Some? <==> s.Some? && NonBlank(s.value)
    ensures TrimToOption(s).Some? ==> NonBlank(TrimToOption(s).value)
  {
    if s.Some? {
      var start, end := TrimCutsTheBlankEnds(s.value);
      if Trim(s.value) != [] {
        assert !Blank(Trim(s.value)[0]);
        assert !Blank(s.value[start]);
      }
    }
  }
}
