/** `formatUptime` of the home page: milliseconds of uptime as
    "<h>h <m>m <s>s", "<m>m <s>s" or "<s>s". */
module HomePage {
  import opened Basics

  /** The three forms the text can take, with their numbers. */
  datatype Uptime = Hours(h: nat, m: nat, s: nat) | Minutes(m: nat, s: nat) | Seconds(s: nat)

  /** Whole seconds, minutes and hours by floor division, then the form. */
  function UptimeParts(uptime: nat): (u: Uptime)
    ensures u.Hours? <==> uptime / 1000 >= 3600
    ensures u.Minutes? <==> 60 <= uptime / 1000 < 3600
    ensures u.Seconds? <==> uptime / 1000 < 60
  {
    var seconds := uptime / 1000;
    var minutes := seconds / 60;
    var hours := minutes / 60;
    if hours > 0 then Hours(hours, minutes % 60, seconds % 60)
    else if minutes > 0 then Minutes(minutes, seconds % 60)
    else Seconds(seconds)
  }

  /** The text shown on the page. */
  function FormatUptime(uptime: nat): (text: string)
    ensures var seconds := uptime / 1000;
      && (seconds < 60 ==> text == Decimal(seconds) + "s")
      && (60 <= seconds < 3600 ==> text == Decimal(seconds / 60) + "m " + Decimal(seconds % 60) + "s")
      && (3600 <= seconds ==>
            text == Decimal(seconds / 3600) + "h " + Decimal(seconds / 60 % 60) + "m " + Decimal(seconds % 60) + "s")
  {
    match UptimeParts(uptime)
    case Hours(h, m, s) => Decimal(h) + "h " + Decimal(m) + "m " + Decimal(s) + "s"
    case Minutes(m, s) => Decimal(m) + "m " + Decimal(s) + "s"
    case Seconds(s) => Decimal(s) + "s"
  }

  /** The seconds a form stands for. */
  function TotalSeconds(u: Uptime): nat {
    match u
    case Hours(h, m, s) => h * 3600 + m * 60 + s
    case Minutes(m, s) => m * 60 + s
    case Seconds(s) => s
  }

  /** The components are in range and add up to the whole seconds. */
  lemma UptimePartsExact(uptime: nat)
    ensures TotalSeconds(UptimeParts(uptime)) == uptime / 1000
    ensures UptimeParts(uptime).Hours? ==> UptimeParts(uptime).m < 60 && UptimeParts(uptime).s < 60
    ensures UptimeParts(uptime).Minutes? ==> UptimeParts(uptime).s < 60
  {
    var seconds := uptime / 1000;
    var minutes := seconds / 60;
    var hours := minutes / 60;
    assert seconds == minutes * 60 + seconds % 60;
    assert minutes == hours * 60 + minutes % 60;
    assert hours * 3600 + (minutes % 60) * 60 == minutes * 60 by {
      calc {
        minutes * 60;
        (hours * 60 + minutes % 60) * 60;
        hours * 3600 + (minutes % 60) * 60;
      }
    }
  }

  /** Anything under a second reads "0s". */
  lemma UnderOneSecond(uptime: nat)
    requires uptime < 1000
    ensures FormatUptime(uptime) == "0s"
  {
    assert Decimal(0) == "0";
  }
}
