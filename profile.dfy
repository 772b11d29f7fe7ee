/** The profile view that `start` renders (bot_telegram.py, lines 37-69): the
    records the external services hand over, and the pure text construction. */
module Profile {
  import opened Wrappers
  import opened Thousands

  /** The session tokens of the active user: the id token that get_balance is
      given, plus the rest, all of which get_tiering_info is given. */
  datatype Tokens = Tokens(idToken: string, others: map<string, string>)

  /** The record AuthInstance.get_active_user() returns for a logged-in user. */
  datatype ActiveUser = ActiveUser(number: string, subscriptionType: string, tokens: Tokens)

  /** The dictionary get_balance returns; a key may be missing. */
  datatype Balance = Balance(remaining: Option<int>, expiredAt: Option<int>)

  /** The dictionary get_tiering_info returns; a key may be missing. */
  datatype Tiering = Tiering(tier: Option<int>, currentPoint: Option<int>)

  const Prepaid: string := "PREPAID"

  predicate IsPrepaid(user: ActiveUser) { user.subscriptionType == Prepaid }

  const NoUserNotice: string :=
    "\U{26A0}\U{FE0F} Belum ada user yang login. Silakan set active user di server."

  /** The points line for an account whose tiering is not fetched. */
  const NoPointInfo: string := "Points: N/A | Tier: N/A"

  const ErrorPrefix: string := "Error mengambil data akun: "

  /** The frame line above and below the profile: 41 equals signs. */
  const Frame: string := "========================================="

  /** The points line for a PREPAID account; a missing tier or point count reads 0. */
  function PointInfo(t: Tiering): string
  {
    "Points: " + IntToString(t.currentPoint.GetOr(0)) + " | Tier: " + IntToString(t.tier.GetOr(0))
  }

  function UserLine(user: ActiveUser): (r: string)
    ensures '\n' !in user.number && '\n' !in user.subscriptionType ==> '\n' !in r
  {
    "\U{1F464} <b>Nomor:</b> <code>" + user.number + "</code> | <b>Type:</b> " + user.subscriptionType
  }

  function BalanceLine(remaining: int): (r: string)
    ensures '\n' !in r
  {
    FormatThousandsNoNewline(remaining);
    "\U{1F4B0} <b>Pulsa:</b> Rp " + FormatThousands(remaining)
  }

  function DateLine(expiredDate: string): (r: string)
    ensures '\n' !in expiredDate ==> '\n' !in r
  {
    "\U{1F4C5} <b>Aktif sampai:</b> " + expiredDate
  }

  function PointsLine(pointInfo: string): (r: string)
    ensures '\n' !in pointInfo ==> '\n' !in r
  {
    "\U{1F48E} <b>" + pointInfo + "</b>"
  }

  /** The six lines of a successfully fetched profile, top to bottom. */
  function ProfileLines(user: ActiveUser, remaining: int, expiredDate: string, pointInfo: string): seq<string>
  {
    [Frame, UserLine(user), BalanceLine(remaining), DateLine(expiredDate), PointsLine(pointInfo), Frame]
  }

  function ProfileText(user: ActiveUser, remaining: int, expiredDate: string, pointInfo: string): string
  {
    JoinLines(ProfileLines(user, remaining, expiredDate, pointInfo))
  }

  /** The view text when a remote call or the date conversion raised. */
  function ErrorText(cause: string): string
  {
    ErrorPrefix + cause
  }

  /** Lines joined by newlines, as the adjacent f-string literals do. */
  function JoinLines(lines: seq<string>): string
    requires |lines| >= 1
  {
    if |lines| == 1 then lines[0] else lines[0] + "\n" + JoinLines(lines[1..])
  }

  /** Python's `s.split("\n")`. */
  function SplitLines(s: string): (r: seq<string>)
    ensures |r| >= 1
    decreases |s|
  {
    if s == [] then [""]
    else
      var rest := SplitLines(s[1..]);
      if s[0] == '\n' then [""] + rest else [[s[0]] + rest[0]] + rest[1..]
  }

  // ---------------------------------------------------------------------------
  // Lemmas

  /** Splitting after a newline-free prefix glues the prefix to the first line. */
  lemma {:induction false} SplitLinesPrefix(a: string, b: string)
    requires '\n' !in a
    ensures SplitLines(a + b) == [a + SplitLines(b)[0]] + SplitLines(b)[1..]
    decreases |a|
  {
    if a != [] {
      assert (a + b)[0] == a[0] && (a + b)[1..] == a[1..] + b;
      assert '\n' !in a[1..] by { assert forall c :: c in a[1..] ==> c in a; }
      SplitLinesPrefix(a[1..], b);
      assert [a[0]] + (a[1..] + SplitLines(b)[0]) == a + SplitLines(b)[0];
    } else {
      var r := SplitLines(b);
      assert a + b == b && a + r[0] == r[0];
      assert r == [r[0]] + r[1..];
    }
  }

  /** Splitting joined newline-free lines gives the lines back. */
  lemma {:induction false} SplitJoin(lines: seq<string>)
    requires |lines| >= 1
    requires forall i :: 0 <= i < |lines| ==> '\n' !in lines[i]
    ensures SplitLines(JoinLines(lines)) == lines
    decreases |lines|
  {
    if |lines| == 1 {
      SplitLinesPrefix(lines[0], "");
      assert lines[0] + "" == lines[0];
    } else {
      var tail := JoinLines(lines[1..]);
      SplitJoin(lines[1..]);
      assert lines[0] + "\n" + tail == lines[0] + ("\n" + tail);
      SplitLinesPrefix(lines[0], "\n" + tail);
      assert ("\n" + tail)[0] == '\n' && ("\n" + tail)[1..] == tail;
      assert SplitLines("\n" + tail) == [""] + lines[1..];
      assert lines[0] + "" == lines[0];
      assert lines == [lines[0]] + lines[1..];
    }
  }

  lemma FormatThousandsNoNewline(x: int)
    ensures '\n' !in FormatThousands(x)
  {
    FormatThousandsCharset(x);
  }

  /** The profile view has exactly six lines: the frame, the number and type,
      "Pulsa: Rp" with the comma-grouped balance, the expiry date, the points
      line and the frame, provided the fields themselves hold no newline. */
  lemma ProfileLayout(user: ActiveUser, remaining: int, expiredDate: string, pointInfo: string)
    requires '\n' !in user.number && '\n' !in user.subscriptionType
    requires '\n' !in expiredDate && '\n' !in pointInfo
    ensures var lines := SplitLines(ProfileText(user, remaining, expiredDate, pointInfo));
      |lines| == 6 && lines[0] == lines[5] == Frame &&
      lines[1] == "\U{1F464} <b>Nomor:</b> <code>" + user.number + "</code> | <b>Type:</b> " + user.subscriptionType &&
      lines[2] == "\U{1F4B0} <b>Pulsa:</b> Rp " + FormatThousands(remaining) &&
      lines[3] == "\U{1F4C5} <b>Aktif sampai:</b> " + expiredDate &&
      lines[4] == "\U{1F48E} <b>" + pointInfo + "</b>"
  {
    var lines := ProfileLines(user, remaining, expiredDate, pointInfo);
    assert '\n' !in Frame;
    SplitJoin(lines);
  }

  /** Where the two values sit in a points line built from their spellings p and q. */
  lemma PointsLineSlices(p: string, q: string)
    ensures var s := "Points: " + p + " | Tier: " + q;
      |s| == 17 + |p| + |q| && s[..8] == "Points: " && s[8..8 + |p|] == p &&
      s[8 + |p|..8 + |p| + 9] == " | Tier: " && s[8 + |p| + 9..] == q
  {
  }

  /** The PREPAID points line carries the point count and the tier, each of
      which can be read back; a missing field reads as 0. It never reads N/A. */
  lemma PointInfoRoundTrip(t: Tiering)
    ensures var s := PointInfo(t);
      var p := IntToString(t.currentPoint.GetOr(0));
      |s| == 8 + |p| + 9 + |IntToString(t.tier.GetOr(0))| &&
      s[..8] == "Points: " && s[8 + |p|..8 + |p| + 9] == " | Tier: " &&
      ParseInt(s[8..8 + |p|]) == Some(t.currentPoint.GetOr(0)) &&
      ParseInt(s[8 + |p| + 9..]) == Some(t.tier.GetOr(0))
    ensures PointInfo(t) != NoPointInfo
  {
    var point, tier := t.currentPoint.GetOr(0), t.tier.GetOr(0);
    var p, q := IntToString(point), IntToString(tier);
    PointsLineSlices(p, q);
    IntToStringRoundTrip(point);
    IntToStringRoundTrip(tier);
    var n: nat := if point < 0 then -point else point;
    NatToDecimalCorrect(n);
    assert p[0] != 'N';
    assert PointInfo(t)[8] == p[0];
  }

  /** A tiering answer with neither field reads "Points: 0 | Tier: 0". */
  lemma PointInfoMissingFields()
    ensures PointInfo(Tiering(None, None)) == "Points: 0 | Tier: 0"
  {
    assert IntToString(0) == "0";
  }

  /** An example points line: 340 points at tier 2. */
  lemma PointInfoExample()
    ensures PointInfo(Tiering(Some(2), Some(340))) == "Points: 340 | Tier: 2"
  {
    assert IntToString(340) == "340" && IntToString(2) == "2";
  }

  /** The error view starts with the fixed prefix and ends with the cause text. */
  lemma ErrorTextCause(cause: string)
    ensures |ErrorText(cause)| == |ErrorPrefix| + |cause|
    ensures ErrorText(cause)[..|ErrorPrefix|] == ErrorPrefix
    ensures ErrorText(cause)[|ErrorPrefix|..] == cause
  {
  }

  /** An example view: number 0812xxxx, PREPAID, 15000 remaining,
      340 points at tier 2, and whatever date the expiry converts to. */
  lemma ProfileExample(user: ActiveUser, date: string)
    requires user.number == "0812xxxx" && user.subscriptionType == Prepaid && '\n' !in date
    ensures
      var lines := SplitLines(ProfileText(user, 15000, date, "Points: 340 | Tier: 2"));
      |lines| == 6 &&
      lines[2] == "\U{1F4B0} <b>Pulsa:</b> Rp " + "15,000" &&
      lines[3] == "\U{1F4C5} <b>Aktif sampai:</b> " + date &&
      lines[4] == "\U{1F48E} <b>" + "Points: 340 | Tier: 2" + "</b>"
  {
    ProfileLayout(user, 15000, date, "Points: 340 | Tier: 2");
    FifteenThousand();
  }
}
