/** The referral page: a referral code derived from the user id, the
    invitation link built from it, and the choice between the native share
    sheet and copying the link. */
module Referrals {
  import opened Wrappers
  import opened JsText
  import Firestore

  const FallbackCode := "TAP-USER"
  const LinkPrefix := "https://tapwrk.app/join?ref="
  const CodeLength := 8

  /** The part of an id the code is taken from: at most its first eight characters. */
  function Clipped(u: string): (n: nat)
    ensures n <= |u| && n <= CodeLength
    ensures n == |u| || n == CodeLength
  {
    if |u| < CodeLength then |u| else CodeLength
  }

  /** `uid?.slice(0, 8).toUpperCase() || 'TAP-USER'`: an absent or empty id gives the
      fallback, any other id the upper-cased first eight characters. */
  function ReferralCode(uid: Option<string>): (code: string)
    ensures uid.None? || uid.value == "" ==> code == FallbackCode
    ensures uid.Some? && uid.value != "" ==>
              && |code| == Clipped(uid.value)
              && forall i :: 0 <= i < |code| ==> code[i] == UpperChar(uid.value[i])
  {
    match uid
    case None => FallbackCode
    case Some(u) =>
      var prefix := ToUpper(u[..Clipped(u)]);
      if prefix != "" then prefix else FallbackCode
  }

  /** A code is never empty and never longer than eight characters, and holds no small letter. */
  lemma ReferralCodeShape(uid: Option<string>)
    ensures 0 < |ReferralCode(uid)| <= CodeLength
    ensures forall i :: 0 <= i < |ReferralCode(uid)| ==> !('a' <= ReferralCode(uid)[i] <= 'z')
  {
    if uid.Some? && uid.value != "" {
      var u := uid.value;
      UpperHasNoSmallLetters(u[..Clipped(u)]);
    }
  }

  /** Ids whose clipped parts have the same length and agree up to case share a code. */
  lemma CodeDependsOnPrefixOnly(u: string, v: string)
    requires Clipped(u) == Clipped(v)
    requires forall i :: 0 <= i < Clipped(u) ==> UpperChar(u[i]) == UpperChar(v[i])
    ensures ReferralCode(Some(u)) == ReferralCode(Some(v))
  {
    if u != "" {
      var a, b := ReferralCode(Some(u)), ReferralCode(Some(v));
      assert |a| == |b| == Clipped(u);
      forall i | 0 <= i < |a| ensures a[i] == b[i] { }
    }
  }

  /** `https://tapwrk.app/join?ref=${referralCode}`: the join prefix, then the code. */
  function ReferralLink(code: string): (link: string)
    ensures |link| == |LinkPrefix| + |code|
    ensures link[..|LinkPrefix|] == LinkPrefix && link[|LinkPrefix|..] == code
  {
    LinkPrefix + code
  }

  /** Different codes give different links, so a link names exactly one code. */
  lemma LinkDeterminesCode(code: string, code': string)
    ensures ReferralLink(code) == ReferralLink(code') <==> code == code'
  {
    if ReferralLink(code) == ReferralLink(code') {
      assert code == ReferralLink(code)[|LinkPrefix|..];
    }
  }

  /** What `handleShare` does. */
  datatype ShareAction =
    | NativeShare(title: string, text: string, url: string)
    | CopyLink(url: string, notice: Toast)

  /** The native share sheet when the browser offers one, otherwise copy-to-clipboard. */
  function ShareChoice(canShare: bool, link: string): (action: ShareAction)
    ensures action.NativeShare? <==> canShare
    ensures action.url == link
    ensures action.CopyLink? ==> action.notice == SuccessToast("Referral link copied!")
  {
    if canShare then
      NativeShare("Join Tapwrk", "Start earning money completing simple tasks on Tapwrk!", link)
    else
      CopyLink(link, SuccessToast("Referral link copied!"))
  }

  /** The page reads the id from the profile record (`userProfile?.uid`), not
      from the signed-in account. */
  function ProfileUid(profile: Option<Firestore.Record>): (uid: Option<string>)
    ensures uid.Some? ==> profile.Some? && "uid" in profile.value && profile.value["uid"] == Firestore.Str(uid.value)
    ensures profile.Some? && "uid" in profile.value && profile.value["uid"].Str? ==> uid.Some?
  {
    match profile
    case None => None
    case Some(r) => if "uid" in r && r["uid"].Str? then Some(r["uid"].s) else None
  }

  /** The referral code exactly as the page derives it, from the profile record. */
  function ReferralCodeOfProfile(profile: Option<Firestore.Record>): (code: string)
    ensures profile.None? ==> code == FallbackCode
    ensures profile.Some? && "uid" !in profile.value ==> code == FallbackCode
  {
    ReferralCode(ProfileUid(profile))
  }

  /** The records signup writes carry no `uid` field (the id is the document's key), so
      every user created at signup sees the fallback code. */
  lemma SignupProfileGetsFallbackCode(docs: map<string, Firestore.Record>, uid: string, userData: Firestore.Record)
    requires "uid" !in userData
    requires uid in docs ==> "uid" !in docs[uid]
    ensures ReferralCodeOfProfile(Some(Firestore.MergedInto(docs, uid, Firestore.InitialRecord(userData)))) == FallbackCode
  {
    assert "uid" !in Firestore.DefaultKeys;
  }

  /** The code as intended: from the signed-in account's id, which is never empty. */
  function ReferralCodeOfAccount(accountUid: string): (code: string)
    requires accountUid != ""
    ensures |code| == Clipped(accountUid)
    ensures forall i :: 0 <= i < |code| ==> code[i] == UpperChar(accountUid[i])
  {
    ReferralCode(Some(accountUid))
  }

  /** Distinct accounts whose ids differ within their first eight letters, up to case, get distinct codes. */
  lemma AccountCodesSeparateUsers(u: string, v: string, i: int)
    requires u != "" && v != "" && 0 <= i < CodeLength && i < |u| && i < |v|
    requires UpperChar(u[i]) != UpperChar(v[i])
    ensures ReferralCodeOfAccount(u) != ReferralCodeOfAccount(v)
  {
    assert ReferralCodeOfAccount(u)[i] != ReferralCodeOfAccount(v)[i];
  }
}
