/** The auth gate's admin side: the admin credential and the single, time-boxed, single-use
    password-reset token, as a value and three transitions on it. The store (module MockApi) holds
    the two parts in fields and is proved to follow these transitions. */
module Auth {
  import opened Types

  /** The live reset token and its expiry, in milliseconds since the epoch. */
  datatype ResetToken = ResetToken(token: string, expiry: int)

  datatype AuthState = AuthState(adminPassword: string, resetToken: Option<ResetToken>)

  /** `{ success, message }`. */
  datatype Reply = Reply(success: bool, message: string)

  /** `{ success, message, token? }`. */
  datatype TokenReply = TokenReply(success: bool, message: string, token: Option<string>)

  /** A transition's new state together with what the call returns. */
  datatype Step<R> = Step(state: AuthState, reply: R)

  /** Five minutes. */
  const TokenLifetime: int := 300000

  const InitialAdminPassword: string := "admin123"

  const WrongPasswordMessage: string := "Incorrect current password."
  const PasswordUpdatedMessage: string := "Password updated successfully."
  const InvalidAdminIdMessage: string := "Invalid admin ID."
  const TokenGeneratedMessage: string := "Token generated. It will expire in 5 minutes."
  const InvalidTokenMessage: string := "Invalid or expired token."
  const ExpiredTokenMessage: string := "Token has expired."
  const PasswordResetMessage: string := "Password reset successfully."

  function LowerChar(c: char): char
  {
    if 'A' <= c <= 'Z' then ((c as int) + 32) as char else c
  }

  /** `s.toLowerCase()` on ASCII letters. */
  function ToLower(s: string): (r: string)
    ensures |r| == |s|
    ensures forall i :: 0 <= i < |s| ==> r[i] == LowerChar(s[i])
  {
    if s == [] then [] else [LowerChar(s[0])] + ToLower(s[1..])
  }

  /** `id.toLowerCase() === 'admin'`: exactly the five-letter ids that spell "admin" in any mix
      of letter case. */
  predicate IsAdminId(id: string): (b: bool)
    ensures b <==> |id| == 5 && forall i :: 0 <= i < 5 ==> LowerChar(id[i]) == "admin"[i]
  {
    var lower := ToLower(id);
    assert |id| == 5 && (forall i :: 0 <= i < 5 ==> LowerChar(id[i]) == "admin"[i]) ==> lower == "admin";
    lower == "admin"
  }

  /** The admin id is recognised in any letter case, and nothing else is. */
  lemma AdminIdAnyCase()
    ensures IsAdminId("admin") && IsAdminId("ADMIN") && IsAdminId("Admin") && IsAdminId("aDmIn")
    ensures !IsAdminId("admin ") && !IsAdminId("adm") && !IsAdminId("S001") && !IsAdminId("")
  {
    assert ToLower("ADMIN") == "admin";
    assert ToLower("Admin") == "admin";
    assert ToLower("aDmIn") == "admin";
    assert ToLower("admin") == "admin";
    assert |ToLower("admin ")| == 6;
  }

  /** Whether an id is the admin id does not depend on the case of its letters. */
  lemma AdminIdIgnoresCase(a: string, b: string)
    requires |a| == |b|
    requires forall i :: 0 <= i < |a| ==> LowerChar(a[i]) == LowerChar(b[i])
    ensures IsAdminId(a) <==> IsAdminId(b)
  {
    assert ToLower(a) == ToLower(b);
  }

  /** changeAdminPassword: succeeds exactly when `oldPass` is the current password, and then
      installs `newPass`; it never touches the reset token. */
  function ChangePassword(s: AuthState, oldPass: string, newPass: string): (r: Step<Reply>)
    ensures r.reply.success <==> oldPass == s.adminPassword
    ensures r.state == if r.reply.success then s.(adminPassword := newPass) else s
    ensures r.reply.message == if r.reply.success then PasswordUpdatedMessage else WrongPasswordMessage
  {
    if oldPass != s.adminPassword then Step(s, Reply(false, WrongPasswordMessage))
    else Step(s.(adminPassword := newPass), Reply(true, PasswordUpdatedMessage))
  }

  /** requestAdminPasswordReset at time `now`, with `token` the freshly drawn random string:
      for the admin id, the token replaces any earlier one and lives for five minutes. */
  function RequestReset(s: AuthState, adminId: string, token: string, now: int): (r: Step<TokenReply>)
    ensures r.reply.success <==> IsAdminId(adminId)
    ensures !r.reply.success ==> r.state == s && r.reply.token == None
    ensures r.reply.success ==> r.state == AuthState(s.adminPassword, Some(ResetToken(token, now + TokenLifetime)))
                                && r.reply.token == Some(token)
  {
    if !IsAdminId(adminId) then Step(s, TokenReply(false, InvalidAdminIdMessage, None))
    else Step(s.(resetToken := Some(ResetToken(token, now + TokenLifetime))),
              TokenReply(true, TokenGeneratedMessage, Some(token)))
  }

  /** resetAdminPassword at time `now`: with no live token or another token string, nothing
      changes; with the right token past its expiry, the token is dropped; otherwise the password
      is replaced and the token is dropped. */
  function ResetPassword(s: AuthState, token: string, newPass: string, now: int): (r: Step<Reply>)
    ensures r.reply.success <==> s.resetToken.Some? && s.resetToken.value.token == token && now <= s.resetToken.value.expiry
    ensures r.reply.success ==> r.state == AuthState(newPass, None)
    ensures !r.reply.success ==> r.state.adminPassword == s.adminPassword
    ensures r.state.resetToken == None || r.state == s
  {
    match s.resetToken
    case None => Step(s, Reply(false, InvalidTokenMessage))
    case Some(live) =>
      if live.token != token then Step(s, Reply(false, InvalidTokenMessage))
      else if live.expiry < now then Step(s.(resetToken := None), Reply(false, ExpiredTokenMessage))
      else Step(AuthState(newPass, None), Reply(true, PasswordResetMessage))
  }

  /** The three failure and success outcomes of a reset, with their messages. */
  lemma ResetOutcomes(s: AuthState, token: string, newPass: string, now: int)
    ensures var r := ResetPassword(s, token, newPass, now);
      (s.resetToken.None? || s.resetToken.value.token != token ==> r == Step(s, Reply(false, InvalidTokenMessage))) &&
      (s.resetToken.Some? && s.resetToken.value.token == token && s.resetToken.value.expiry < now ==>
         r == Step(s.(resetToken := None), Reply(false, ExpiredTokenMessage))) &&
      (s.resetToken.Some? && s.resetToken.value.token == token && now <= s.resetToken.value.expiry ==>
         r == Step(AuthState(newPass, None), Reply(true, PasswordResetMessage)))
  {
  }

  /** A token is single use: once it has reset the password, presenting it again is refused as
      invalid and changes nothing. */
  lemma TokenSingleUse(s: AuthState, token: string, p1: string, t1: int, p2: string, t2: int)
    requires ResetPassword(s, token, p1, t1).reply.success
    ensures var s1 := ResetPassword(s, token, p1, t1).state;
      ResetPassword(s1, token, p2, t2) == Step(s1, Reply(false, InvalidTokenMessage))
  {
  }

  /** A token requested at time `issued` resets the password if and only if it is presented no
      later than `issued + TokenLifetime`; the expiry instant itself is still accepted. */
  lemma ResetWindow(s: AuthState, adminId: string, token: string, issued: int, newPass: string, now: int)
    requires IsAdminId(adminId)
    ensures var s1 := RequestReset(s, adminId, token, issued).state;
      ResetPassword(s1, token, newPass, now).reply.success <==> now <= issued + TokenLifetime
  {
  }

  /** After the window the token is reported as expired once, and from then on as invalid. */
  lemma ExpiredThenInvalid(s: AuthState, adminId: string, token: string, issued: int, p1: string, t1: int, p2: string, t2: int)
    requires IsAdminId(adminId) && t1 > issued + TokenLifetime
    ensures var s1 := RequestReset(s, adminId, token, issued).state;
      var r1 := ResetPassword(s1, token, p1, t1);
      r1.reply == Reply(false, ExpiredTokenMessage) && r1.state == AuthState(s.adminPassword, None) &&
      ResetPassword(r1.state, token, p2, t2).reply == Reply(false, InvalidTokenMessage)
  {
  }

  /** A second request supersedes the first: the earlier token no longer works. */
  lemma LaterRequestSupersedes(s: AuthState, adminId: string, t1: string, t2: string, at1: int, at2: int, newPass: string, now: int)
    requires IsAdminId(adminId) && t1 != t2
    ensures var s1 := RequestReset(RequestReset(s, adminId, t1, at1).state, adminId, t2, at2).state;
      ResetPassword(s1, t1, newPass, now) == Step(s1, Reply(false, InvalidTokenMessage))
  {
  }
}
