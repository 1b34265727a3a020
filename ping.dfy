/**
  The `ping` reply: how long the bot has been up, and the local time and
  date. The uptime comes in whole seconds and the time and date as the
  text the locale formatting produces; reading the clock is not modelled.
*/
module PingCommand {
  import opened Text

  datatype Uptime = Uptime(horas: nat, minutos: nat, segundos: nat)

  /** Hours, the minutes of the last hour and the seconds of the last minute. */
  function SplitUptime(seconds: nat): (u: Uptime)
    ensures u.horas * 3600 + u.minutos * 60 + u.segundos == seconds
    ensures u.minutos < 60 && u.segundos < 60
  {
    Uptime(seconds / 3600, (seconds % 3600) / 60, seconds % 60)
  }

  /** Splitting is exact: the parts give back the uptime, and no other parts in range do. */
  lemma SplitUptimeUnique(seconds: nat, u: Uptime)
    requires u.minutos < 60 && u.segundos < 60
    requires u.horas * 3600 + u.minutos * 60 + u.segundos == seconds
    ensures SplitUptime(seconds) == u
  {
    var v := SplitUptime(seconds);
    assert v.minutos * 60 + v.segundos < 3600;
    assert u.minutos * 60 + u.segundos < 3600;
  }

  function PingReply(uptimeSeconds: nat, hora: string, data: string): string
  {
    var u := SplitUptime(uptimeSeconds);
    "🏓 *PONG!*\n\n✅ Bot está online e funcionando!\n\n⏱️ *Uptime:* " + NatToString(u.horas) + "h "
    + NatToString(u.minutos) + "m " + NatToString(u.segundos) + "s\n🕐 *Hora atual:* " + hora
    + "\n📅 *Data:* " + data + "\n\n💰 _FinGuard Bot - Seu controle financeiro!_"
  }
}
