/** Masked key previews (internal/policy/keys.go). */
module KeyPreviews {
  import opened Strings

  /** `PreviewKey`: a short secret itself, of a long one both ends. */
  function PreviewKey(secret: string): string {
    var key := Trim(secret);
    if |key| <= 12 then key else key[..7] + "..." + key[|key| - 5..]
  }

  lemma {:induction false} PreviewIsTrimmed(secret: string)
    ensures Trim(PreviewKey(secret)) == PreviewKey(secret)
  {
    hide Trim;
    TrimIsIdempotent(secret);
    if |Trim(secret)| > 12 { TrimmedStays(PreviewKey(secret)); }
  }

  /** The position after the last "..." of a preview, else its start. */
  function AfterDots(s: string): nat
    ensures AfterDots(s) <= |s|
  {
    if |s| < 3 then 0 else if s[|s| - 3..] == "..." then |s| else AfterDots(s[..|s| - 1])
  }

  predicate DotsAt(s: string, j: int) { 0 <= j <= |s| - 3 && s[j..j + 3] == "..." }

  lemma {:induction false} SameDots(s: string, j: nat)
    requires j < |s| - 3
    ensures DotsAt(s[..|s| - 1], j) <==> DotsAt(s, j)
  {
    assert s[..|s| - 1][j..j + 3] == s[j..j + 3];
  }

  /** It is the position just after the last "...", or the start. */
  lemma {:induction false} AfterDotsIs(s: string)
    ensures var i := AfterDots(s); (i == 0 || DotsAt(s, i - 3)) && forall j :: DotsAt(s, j) ==> j + 3 <= i
  {
    if |s| >= 3 && s[|s| - 3..] != "..." {
      var front := s[..|s| - 1];
      AfterDotsIs(front);
      var i := AfterDots(front);
      if i > 0 { SameDots(s, i - 3); }
      forall j | DotsAt(s, j) ensures j + 3 <= i {
        if j < |s| - 3 { SameDots(s, j); }
      }
    }
  }

  /** At most the last four characters stay visible. */
  function MaskKeyPreview(preview: string): string {
    var p := Trim(preview);
    if p == "" then ""
    else
      var tail := p[AfterDots(p)..];
      "cpa_*****" + if |tail| > 4 then tail[|tail| - 4..] else tail
  }

  lemma {:induction false} EmptyIsTrimmed()
    ensures Trim("") == ""
  {
  }

  lemma {:induction false} TrimmedStays(s: string)
    requires Trimmed(s)
    ensures Trim(s) == s
  {
  }

  /** A mask shows the last four characters, if there are so many, of what follows the last "..."; it needs no trimming. */
  lemma {:induction false} MaskIsTrimmed(preview: string)
    ensures var mask, p := MaskKeyPreview(preview), Trim(preview);
            && Trim(mask) == mask && (mask == "" <==> p == "")
            && (p != "" ==>
                  var shown := p[AfterDots(p)..];
                  mask == "cpa_*****" + (if |shown| <= 4 then shown else shown[|shown| - 4..]))
  {
    hide Trim, AfterDots;
    var p := Trim(preview);
    TrimIsIdempotent(preview);
    if p == "" {
      EmptyIsTrimmed();
    } else {
      var tail := p[AfterDots(p)..];
      var i := |p| - if |tail| > 4 then 4 else |tail|;
      assert MaskKeyPreview(preview) == "cpa_*****" + p[i..];
      MaskedIsTrimmed("cpa_*****", p, i);
    }
  }

  lemma {:induction false} MaskedIsTrimmed(prefix: string, p: string, i: nat)
    requires |prefix| == 9 && prefix[0] == 'c' && prefix[8] == '*' && p != "" && Trimmed(p) && i <= |p|
    ensures Trim(prefix + p[i..]) == prefix + p[i..]
  {
    hide Trim;
    TrimmedStays(prefix + p[i..]);
  }

  lemma {:induction false} EndsWithADot(s: string, j: int)
    requires DotsAt(s, j)
    ensures s[j + 2] == '.'
  {
    assert s[j..j + 3][2] == '.';
  }

  /** A secret is kept by its first seven and last five characters, and an event shows the last four of them. */
  lemma {:induction false} SecretIsMasked(secret: string)
    requires var key := Trim(secret); |key| > 12 && forall i :: |key| - 5 <= i < |key| ==> key[i] != '.'
    ensures var key, preview := Trim(secret), PreviewKey(secret);
            && |preview| == 15 && preview[..7] == key[..7] && preview[7..10] == "..." && preview[10..] == key[|key| - 5..]
            && MaskKeyPreview(preview) == "cpa_*****" + key[|key| - 4..]
  {
    var key, preview := Trim(secret), PreviewKey(secret);
    PreviewIsTrimmed(secret);
    hide Trim;
    AfterDotsIs(preview);
    var i := AfterDots(preview);
    assert DotsAt(preview, 7);
    assert preview[10..] == key[|key| - 5..];
    assert forall k :: 10 <= k < 15 ==> preview[k] == key[|key| - 5..][k - 10];
    EndsWithADot(preview, i - 3);
    assert i == 10;
    assert preview[10..][1..] == key[|key| - 4..];
  }
}
