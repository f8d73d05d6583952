/** The string handling of the server's `suggest` endpoint: finding a marker
    in a policy's evaluation text and extracting the explanation after it, as
    Python's `in`, `str.split(sep)[1]` and `str.strip()` do. */
module SuggestText {
  import opened Values

  const SuccessWord: string := "Éxito"
  const SuccessMarker: string := "Éxito:"
  const FailureMarker: string := "Fracaso:"

  /** `sep` occurs in `s` starting at index `i`. */
  predicate OccursAt(s: string, sep: string, i: nat) {
    i + |sep| <= |s| && s[i..i + |sep|] == sep
  }

  /** Python's `sep in s`. */
  predicate Contains(s: string, sep: string) {
    exists i: nat :: i <= |s| && OccursAt(s, sep, i)
  }

  /** The first index at or after `from` where `sep` occurs (`s.find(sep, from)`). */
  function FindFrom(s: string, sep: string, from: nat): (r: Option<nat>)
    requires from <= |s|
    decreases |s| - from
    ensures r.Some? ==> from <= r.value && OccursAt(s, sep, r.value)
    ensures r.Some? ==> forall j: nat :: from <= j < r.value ==> !OccursAt(s, sep, j)
    ensures r.None? ==> forall j: nat :: from <= j ==> !OccursAt(s, sep, j)
  {
    if OccursAt(s, sep, from) then Some(from)
    else if from == |s| then None
    else FindFrom(s, sep, from + 1)
  }

  /** The first occurrence of `sep` in `s`, found exactly when `sep in s`. */
  function Find(s: string, sep: string): (r: Option<nat>)
    ensures r.Some? <==> Contains(s, sep)
    ensures r.Some? ==> OccursAt(s, sep, r.value) && forall j: nat :: j < r.value ==> !OccursAt(s, sep, j)
  {
    FindFrom(s, sep, 0)
  }

  /** `s.split(sep)[1]`: the text between the first occurrence of `sep` and
      the next one, or the end of `s`. */
  function SecondPiece(s: string, sep: string): (r: string)
    requires |sep| > 0 && Contains(s, sep)
    // r starts right after the first occurrence of sep ...
    ensures Find(s, sep).value + |sep| + |r| <= |s|
    ensures r == s[Find(s, sep).value + |sep| .. Find(s, sep).value + |sep| + |r|]
    // ... and runs up to the next occurrence, or to the end
    ensures var stop := Find(s, sep).value + |sep| + |r|; stop == |s| || OccursAt(s, sep, stop)
    // ... with no occurrence of sep starting before that point: it is the next one
    ensures forall k: nat :: Find(s, sep).value + |sep| <= k < Find(s, sep).value + |sep| + |r| ==> !OccursAt(s, sep, k)
    // so the piece never contains the separator
    ensures !Contains(r, sep)
  {
    var start := Find(s, sep).value + |sep|;
    var rest := s[start..];
    match Find(rest, sep)
    case None =>
      NoOccurrenceBefore(s, sep, start, |rest|);
      rest
    case Some(j) =>
      NoOccurrenceBefore(s, sep, start, j);
      PrefixBeforeFirst(rest, sep, j);
      assert s[start + j..start + j + |sep|] == rest[j..j + |sep|];
      rest[..j]
  }

  /** An occurrence-free stretch at the start of a suffix is occurrence-free
      in the whole text, at the shifted positions. */
  lemma NoOccurrenceBefore(s: string, sep: string, start: nat, j: nat)
    requires start + j <= |s|
    requires forall i: nat :: i < j ==> !OccursAt(s[start..], sep, i)
    ensures forall k: nat :: start <= k < start + j ==> !OccursAt(s, sep, k)
  {
    forall k: nat | start <= k < start + j ensures !OccursAt(s, sep, k) {
      var i: nat := k - start;
      assert !OccursAt(s[start..], sep, i);
      if k + |sep| <= |s| {
        assert s[start..][i..i + |sep|] == s[k..k + |sep|];
      }
    }
  }

  /** The text before the first occurrence of `sep` does not contain it. */
  lemma PrefixBeforeFirst(t: string, sep: string, j: nat)
    requires |sep| > 0
    requires j <= |t| && forall i: nat :: i < j ==> !OccursAt(t, sep, i)
    ensures !Contains(t[..j], sep)
  {
    forall i: nat | OccursAt(t[..j], sep, i) ensures false {
      assert t[i..i + |sep|] == t[..j][i..i + |sep|];
      assert OccursAt(t, sep, i);
    }
  }

  /** The characters Python's `str.isspace()` accepts. */
  predicate IsSpace(c: char) {
    ('\t' <= c <= '\r') || ('\U{1C}' <= c <= '\U{1F}') || c == ' ' || c == '\U{85}' || c == '\U{A0}' ||
    c == '\U{1680}' || ('\U{2000}' <= c <= '\U{200A}') || c == '\U{2028}' || c == '\U{2029}' ||
    c == '\U{202F}' || c == '\U{205F}' || c == '\U{3000}'
  }

  /** `s.lstrip()` */
  function StripStart(s: string): (r: string)
    ensures |r| <= |s| && r == s[|s| - |r|..]
    ensures forall k :: 0 <= k < |s| - |r| ==> IsSpace(s[k])
    ensures r == [] || !IsSpace(r[0])
  {
    if s != [] && IsSpace(s[0]) then StripStart(s[1..]) else s
  }

  /** `s.rstrip()` */
  function StripEnd(s: string): (r: string)
    ensures |r| <= |s| && r == s[..|r|]
    ensures forall k :: |r| <= k < |s| ==> IsSpace(s[k])
    ensures r == [] || !IsSpace(r[|r| - 1])
  {
    if s != [] && IsSpace(s[|s| - 1]) then StripEnd(s[..|s| - 1]) else s
  }

  /** `s.strip()`: the longest slice of `s` that neither starts nor ends with
      whitespace, everything cut off around it being whitespace. */
  function Strip(s: string): (r: string)
    ensures exists a: nat, b: nat :: a <= b <= |s| && r == s[a..b] &&
              (forall k :: 0 <= k < a ==> IsSpace(s[k])) && (forall k :: b <= k < |s| ==> IsSpace(s[k]))
    ensures r == [] || (!IsSpace(r[0]) && !IsSpace(r[|r| - 1]))
  {
    var t := StripStart(s);
    var r := StripEnd(t);
    var a := |s| - |t|;
    assert t == s[a..];
    assert r == t[..|r|] == s[a..a + |r|];
    StripEndKeepsStart(t);
    r
  }

  /** Cutting whitespace off the end of a text that does not start with
      whitespace leaves a text that does not start with whitespace. */
  lemma StripEndKeepsStart(t: string)
    requires t == [] || !IsSpace(t[0])
    ensures StripEnd(t) == [] || !IsSpace(StripEnd(t)[0])
  {
  }

  /** The explanation `suggest` reports for a policy's evaluation text: what
      follows the first "Éxito:", or failing that the first "Fracaso:", up to
      the next occurrence of that marker, without surrounding whitespace. */
  function Explanation(evaluacion: string): (motivo: Option<string>)
    ensures motivo.None? <==> !Contains(evaluacion, SuccessMarker) && !Contains(evaluacion, FailureMarker)
  {
    if Contains(evaluacion, SuccessMarker) then Some(Strip(SecondPiece(evaluacion, SuccessMarker)))
    else if Contains(evaluacion, FailureMarker) then Some(Strip(SecondPiece(evaluacion, FailureMarker)))
    else None
  }

  /** A slice of a text in which `sep` does not occur has no `sep` either. */
  lemma SliceAvoids(s: string, sep: string, a: nat, b: nat)
    requires a <= b <= |s| && !Contains(s, sep)
    ensures !Contains(s[a..b], sep)
  {
    forall i: nat | i <= b - a ensures !OccursAt(s[a..b], sep, i) {
      if i + |sep| <= b - a {
        var inSlice, inText := s[a..b][i..i + |sep|], s[a + i..a + i + |sep|];
        forall k | 0 <= k < |sep| ensures inSlice[k] == inText[k] {
        }
        assert inSlice == inText;
        assert !OccursAt(s, sep, a + i);
      }
    }
  }

  /** The explanation never contains the marker it was cut at. */
  lemma ExplanationOmitsMarker(evaluacion: string)
    ensures Contains(evaluacion, SuccessMarker) ==> !Contains(Explanation(evaluacion).value, SuccessMarker)
    ensures !Contains(evaluacion, SuccessMarker) && Contains(evaluacion, FailureMarker) ==>
              !Contains(Explanation(evaluacion).value, FailureMarker)
  {
    if Contains(evaluacion, SuccessMarker) {
      var piece := SecondPiece(evaluacion, SuccessMarker);
      var a: nat, b: nat :| a <= b <= |piece| && Strip(piece) == piece[a..b];
      SliceAvoids(piece, SuccessMarker, a, b);
    } else if Contains(evaluacion, FailureMarker) {
      var piece := SecondPiece(evaluacion, FailureMarker);
      var a: nat, b: nat :| a <= b <= |piece| && Strip(piece) == piece[a..b];
      SliceAvoids(piece, FailureMarker, a, b);
    }
  }

  /** An evaluation written "Éxito:" followed by a reason yields the reason,
      stripped, as long as the reason does not repeat the marker. */
  lemma ExplanationAfterSuccess(reason: string)
    requires !Contains(reason, SuccessMarker)
    ensures Explanation(SuccessMarker + reason) == Some(Strip(reason))
  {
    var s := SuccessMarker + reason;
    assert OccursAt(s, SuccessMarker, 0);
    assert s[|SuccessMarker|..] == reason;
  }

  /** An evaluation written "Fracaso:" followed by a reason yields the reason,
      stripped, as long as the reason names neither marker. */
  lemma ExplanationAfterFailure(reason: string)
    requires !Contains(reason, SuccessMarker) && !Contains(reason, FailureMarker)
    ensures Explanation(FailureMarker + reason) == Some(Strip(reason))
  {
    var s := FailureMarker + reason;
    // no occurrence of "Éxito:" can start inside "Fracaso:", which has no 'É'
    assert 'É' !in FailureMarker;
    forall i: nat | i < |FailureMarker| ensures !OccursAt(s, SuccessMarker, i) {
      assert s[i] == FailureMarker[i];
    }
    // nor in the reason
    forall i: nat | |FailureMarker| <= i ensures !OccursAt(s, SuccessMarker, i) {
      if i + |SuccessMarker| <= |s| {
        assert s[i..i + |SuccessMarker|] == reason[i - |FailureMarker|..i - |FailureMarker| + |SuccessMarker|];
        assert !OccursAt(reason, SuccessMarker, i - |FailureMarker|);
      }
    }
    assert OccursAt(s, FailureMarker, 0);
    assert s[|FailureMarker|..] == reason;
  }

  /** The evaluation text of the dataset row the server's tests use. */
  lemma ExplanationOfSampleRow()
    ensures Explanation("Éxito: Razón 1") == Some("Razón 1")
  {
    var reason := " Razón 1";
    SampleReasonHasNoMarker(reason);
    assert SuccessMarker + reason == "Éxito: Razón 1";
    ExplanationAfterSuccess(reason);
    SampleReasonStrips(reason);
  }

  lemma SampleReasonHasNoMarker(reason: string)
    requires reason == " Razón 1"
    ensures !Contains(reason, SuccessMarker)
  {
    assert 'É' !in reason;
    forall i: nat | i + |SuccessMarker| <= |reason| ensures !OccursAt(reason, SuccessMarker, i) {
      assert reason[i] in reason;
    }
  }

  lemma SampleReasonStrips(reason: string)
    requires reason == " Razón 1"
    ensures Strip(reason) == "Razón 1"
  {
    var tail := reason[1..];
    assert tail == "Razón 1";
    assert IsSpace(reason[0]) && !IsSpace(tail[0]);
    assert StripStart(tail) == tail;
    assert StripStart(reason) == tail;
    assert !IsSpace(tail[|tail| - 1]);
    assert StripEnd(tail) == tail;
  }
}
