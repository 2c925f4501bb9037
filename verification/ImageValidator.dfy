/** Image validation (`internal/image/validator.go`): the approved and blocked pattern lists. */
module ImageValidator {
  import opened Common

  predicate Matches(image: string, pattern: string) {
    var p := TrimSpace(pattern);
    if p == "" then false
    else if HasSuffix(p, "*") then HasPrefix(image, TrimSuffix(p, "*"))
    else image == p
  }

  datatype Verdict = Accepted | BlockedBy(pattern: string) | NotApproved

  function FirstMatch(image: string, patterns: seq<string>): Option<string> {
    if patterns == [] then None
    else if Matches(image, patterns[0]) then Some(patterns[0])
    else FirstMatch(image, patterns[1..])
  }

  function Validate(approved: seq<string>, blocked: seq<string>, image: string): Verdict {
    if |approved| == 0 && |blocked| == 0 then Accepted
    else
      match FirstMatch(image, blocked)
      case Some(p) => BlockedBy(p)
      case None =>
        if |approved| > 0 then if FirstMatch(image, approved).Some? then Accepted else NotApproved
        else Accepted
  }

  /** The images a list of patterns describes: for each pattern, trimmed and not blank, the images
      equal to it or, when it ends in `*`, those that start with what precedes the star. */
  ghost predicate Described(image: string, patterns: seq<string>) {
    exists i :: 0 <= i < |patterns| && InImagePattern(image, TrimSpace(patterns[i]))
  }

  ghost predicate InImagePattern(image: string, p: string) {
    p != "" && InPattern(image, p)
  }

  lemma {:induction false} MatchesIsMembership(image: string, pattern: string)
    ensures Matches(image, pattern) <==> InImagePattern(image, TrimSpace(pattern))
  {
    var p := TrimSpace(pattern);
    if HasSuffix(p, "*") {
      PrefixPattern(image, p);
      assert p == TrimSuffix(p, "*") + "*";
    } else {
      forall prefix ensures HasSuffix(prefix + "*", "*") {}
    }
  }

  lemma {:induction false} FirstMatchFinds(image: string, patterns: seq<string>)
    ensures FirstMatch(image, patterns).Some? <==> Described(image, patterns)
    ensures FirstMatch(image, patterns).Some? ==> FirstMatch(image, patterns).value in patterns
    decreases |patterns|
  {
    if patterns != [] {
      MatchesIsMembership(image, patterns[0]);
      FirstMatchFinds(image, patterns[1..]);
      if Described(image, patterns[1..]) {
        var i :| 0 <= i < |patterns[1..]| && InImagePattern(image, TrimSpace(patterns[1..][i]));
        assert patterns[i + 1] == patterns[1..][i];
      }
      if Described(image, patterns) && !Matches(image, patterns[0]) {
        var i :| 0 <= i < |patterns| && InImagePattern(image, TrimSpace(patterns[i]));
        assert patterns[1..][i - 1] == patterns[i];
      }
    }
  }

  /** The accepted images are the approved ones, or all if nothing is approved, minus the blocked ones. */
  lemma {:induction false} AcceptsExactly(approved: seq<string>, blocked: seq<string>, image: string)
    ensures Validate(approved, blocked, image) == Accepted
            <==> (approved == [] || Described(image, approved)) && !Described(image, blocked)
  {
    FirstMatchFinds(image, approved);
    FirstMatchFinds(image, blocked);
  }

  /** A refusal names its true reason, and blocking comes first: a blocked image is refused for a pattern on
      the blocked list that describes it, any other for being on no approved pattern. */
  lemma {:induction false} RefusesForItsReason(approved: seq<string>, blocked: seq<string>, image: string)
    ensures var v := Validate(approved, blocked, image);
            && (v.BlockedBy? <==> Described(image, blocked))
            && (v.BlockedBy? ==> v.pattern in blocked && InImagePattern(image, TrimSpace(v.pattern)))
            && (v.NotApproved? <==> !Described(image, blocked) && approved != [] && !Described(image, approved))
  {
    FirstMatchFinds(image, approved);
    FirstMatchFinds(image, blocked);
    FirstMatchMatches(image, blocked);
  }

  lemma {:induction false} FirstMatchMatches(image: string, patterns: seq<string>)
    ensures FirstMatch(image, patterns).Some? ==> InImagePattern(image, TrimSpace(FirstMatch(image, patterns).value))
    decreases |patterns|
  {
    if patterns != [] {
      MatchesIsMembership(image, patterns[0]);
      FirstMatchMatches(image, patterns[1..]);
    }
  }

  ghost predicate SamePatterns(ps: seq<string>, qs: seq<string>) {
    forall p :: p in ps <==> p in qs
  }

  lemma {:induction false} DescribedBySet(image: string, ps: seq<string>, qs: seq<string>)
    requires SamePatterns(ps, qs) && Described(image, ps)
    ensures Described(image, qs)
  {
    var i :| 0 <= i < |ps| && InImagePattern(image, TrimSpace(ps[i]));
    assert ps[i] in qs;
    var j :| 0 <= j < |qs| && qs[j] == ps[i];
  }

  /** Reordering or repeating entries of either list changes no verdict. */
  lemma {:induction false} OrderIrrelevant(approved: seq<string>, approved': seq<string>, blocked: seq<string>, blocked': seq<string>, image: string)
    requires SamePatterns(approved, approved') && SamePatterns(blocked, blocked')
    ensures Validate(approved, blocked, image) == Accepted <==> Validate(approved', blocked', image) == Accepted
  {
    AcceptsExactly(approved, blocked, image);
    AcceptsExactly(approved', blocked', image);
    if Described(image, approved) { DescribedBySet(image, approved, approved'); }
    if Described(image, approved') { DescribedBySet(image, approved', approved); }
    if Described(image, blocked) { DescribedBySet(image, blocked, blocked'); }
    if Described(image, blocked') { DescribedBySet(image, blocked', blocked); }
    assert approved == [] <==> approved' == [] by {
      if approved != [] { assert approved[0] in approved'; }
      if approved' != [] { assert approved'[0] in approved; }
    }
  }
}
