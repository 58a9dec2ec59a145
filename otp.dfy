/** The six-slot one-time-code buffer shared by the e-mail verification and password reset
    pages: which values a slot accepts, the code submitted (the slots joined in order), and
    the guard both pages apply when they are reached without an e-mail address. */
module Otp {
  import opened Common

  /** Number of input boxes. */
  const Slots: nat := 6

  /** The buffer every page starts with, and the one a successful resend restores. */
  const Blank: seq<string> := ["", "", "", "", "", ""]

  predicate IsDigit(c: char)
  {
    '0' <= c <= '9'
  }

  /** `/^\d?$/` (written `/^[0-9]?$/` on the reset page): the empty string or exactly one
      ASCII digit. */
  predicate Accepts(v: string)
    ensures Accepts(v) ==> |v| <= 1 && forall i :: 0 <= i < |v| ==> IsDigit(v[i])
    ensures v == "" || (|v| == 1 && '0' <= v[0] <= '9') ==> Accepts(v)
  {
    v == "" || (|v| == 1 && IsDigit(v[0]))
  }

  /** A buffer as the pages keep it: six slots, each holding an accepted value. */
  predicate WellFormed(otp: seq<string>)
  {
    |otp| == Slots && forall i :: 0 <= i < |otp| ==> Accepts(otp[i])
  }

  /** `otp.join("")`: the slots concatenated in order. Over accepted slots the code is
      never longer than the buffer and holds nothing but digits. */
  function Join(otp: seq<string>): (code: string)
    ensures (forall i :: 0 <= i < |otp| ==> Accepts(otp[i])) ==>
              |code| <= |otp| && forall j :: 0 <= j < |code| ==> IsDigit(code[j])
  {
    if otp == [] then "" else otp[0] + Join(otp[1..])
  }

  /** One slot per character of a code: the inverse of `Join` on filled buffers. */
  function Split(code: string): (otp: seq<string>)
    ensures |otp| == |code|
    ensures forall i :: 0 <= i < |code| ==> otp[i] == [code[i]]
  {
    seq(|code|, i requires 0 <= i < |code| => [code[i]])
  }

  /** With every slot holding one character, the code has one character per slot, in
      slot order. */
  lemma {:induction false} JoinFilled(otp: seq<string>)
    requires forall i :: 0 <= i < |otp| ==> |otp[i]| == 1
    ensures |Join(otp)| == |otp|
    ensures forall i :: 0 <= i < |otp| ==> Join(otp)[i] == otp[i][0]
  {
    if otp != [] {
      JoinFilled(otp[1..]);
      forall i | 0 <= i < |otp|
        ensures Join(otp)[i] == otp[i][0]
      {
        if i > 0 {
          assert otp[1..][i - 1] == otp[i];
        }
      }
    }
  }

  /** Over accepted slots, a single empty slot makes the submitted code shorter than the
      buffer: the server then receives fewer digits than there are boxes. */
  lemma {:induction false} JoinShort(otp: seq<string>, k: nat)
    requires forall i :: 0 <= i < |otp| ==> Accepts(otp[i])
    requires k < |otp| && otp[k] == ""
    ensures |Join(otp)| < |otp|
  {
    if k > 0 {
      assert forall i :: 0 <= i < |otp[1..]| ==> Accepts(otp[1..][i]);
      JoinShort(otp[1..], k - 1);
    } else {
      assert forall i :: 0 <= i < |otp[1..]| ==> Accepts(otp[1..][i]);
    }
  }

  /** A well-formed buffer yields a full six-digit code exactly when no slot is empty. */
  lemma CompleteIffFilled(otp: seq<string>)
    requires WellFormed(otp)
    ensures |Join(otp)| == Slots <==> forall i :: 0 <= i < |otp| ==> otp[i] != ""
  {
    if forall i :: 0 <= i < |otp| ==> otp[i] != "" {
      JoinFilled(otp);
    } else {
      var k :| 0 <= k < |otp| && otp[k] == "";
      JoinShort(otp, k);
    }
  }

  /** Splitting the code of a filled buffer gives the buffer back. */
  lemma SplitJoin(otp: seq<string>)
    requires forall i :: 0 <= i < |otp| ==> |otp[i]| == 1
    ensures Split(Join(otp)) == otp
  {
    JoinFilled(otp);
    var back := Split(Join(otp));
    forall i | 0 <= i < |otp|
      ensures back[i] == otp[i]
    {
      assert otp[i] == [otp[i][0]];
    }
  }

  /** Joining the slots of a split code gives the code back. */
  lemma {:induction false} JoinSplit(code: string)
    ensures Join(Split(code)) == code
  {
    if code != [] {
      assert Split(code)[1..] == Split(code[1..]);
      JoinSplit(code[1..]);
      assert code == [code[0]] + code[1..];
    }
  }

  /** The guard both code pages apply before anything else: without an e-mail address in
      the navigation state they redirect to `fallback` and render nothing. */
  function EmailRedirect(email: Option<string>, fallback: string): (redirect: Option<string>)
    ensures redirect.None? <==> email.Some? && email.value != ""
    ensures redirect.Some? ==> redirect.value == fallback
  {
    if email.Some? && email.value != "" then None else Some(fallback)
  }
}
