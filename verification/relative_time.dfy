/**
 * The relative-time labels shared by the commentary and chat panels: a
 * difference in whole seconds between now and an event, written in words
 * for the last hour and as a clock time after that.
 */
module RelativeTime {
  import opened Text

  /** A rendered time: words, or the event's clock time (locale formatting is not modelled). */
  datatype TimeLabel = Words(text: string) | ClockTime(at: int)

  /** `${Math.floor(diff / 60)}m ago`: the whole minutes elapsed, between 1 and 59. */
  function MinutesAgo(diff: int): (r: string)
    requires 60 <= diff < 3600
    ensures exists m: nat :: 1 <= m < 60 && m * 60 <= diff < m * 60 + 60 && r == NatToString(m) + "m ago"
  {
    var m := diff / 60;
    assert 1 <= m < 60 && m * 60 <= diff < m * 60 + 60;
    NatToString(m) + "m ago"
  }

  /** Different whole minutes give different labels. */
  lemma MinutesAgoDistinguishes(d1: int, d2: int)
    requires 60 <= d1 < 3600 && 60 <= d2 < 3600
    requires MinutesAgo(d1) == MinutesAgo(d2)
    ensures d1 / 60 == d2 / 60
  {
    var a := NatToString(d1 / 60);
    var b := NatToString(d2 / 60);
    assert a + "m ago" == b + "m ago";
    assert a == b by {
      assert |a| == |b|;
      assert a == (a + "m ago")[..|a|];
      assert b == (b + "m ago")[..|b|];
    }
    NatToStringInjective(d1 / 60, d2 / 60);
  }
}
