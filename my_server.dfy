/**
 * The start-up checks of the speech server (tts/src/MyServer.cpp): the
 * options parsed from the command line must name the HTTP address and the
 * synthesiser socket's address, and both ports must lie outside the
 * well-known range. The first failed check ends the process with status -1.
 */
module TtsServer {
  /** The options the checks look at; the others are passed on unchecked. */
  datatype Options = Options(ip: string, socketIp: string, port: int, socketPort: int)

  /** The placeholder an address keeps when the command line does not set it. */
  const Unset := "NULL"

  /** The defaults the option list starts from. */
  const DefaultOptions := Options(Unset, Unset, 0, 0)

  /** Why start-up stopped, one reason per check. */
  datatype StartupError = IpMissing | SocketIpMissing | PortOutOfRange | SocketPortOutOfRange

  /** The outcome of the checks: go on to serve with these options, or `exit(-1)`. */
  datatype Startup = Listen(options: Options) | Abort(reason: StartupError)

  /** A port outside the well-known range that still fits in 16 bits. */
  predicate PortAllowed(p: int)
  {
    1024 <= p <= 65535
  }

  /**
   * The checks of `main`, in order: the address, the socket address, the
   * port, the socket port. The outcome names the first that fails; the
   * options are accepted only when every check passes. The addresses are
   * compared with the placeholder exactly, as `strcmp` does, so any other
   * text, even an empty one, passes.
   */
  function ValidateStartup(o: Options): (r: Startup)
    ensures r.Listen? <==> o.ip != Unset && o.socketIp != Unset && PortAllowed(o.port) && PortAllowed(o.socketPort)
    ensures r.Listen? ==> r.options == o
    ensures r == Abort(IpMissing) <==> o.ip == Unset
    ensures r == Abort(SocketIpMissing) <==> o.ip != Unset && o.socketIp == Unset
    ensures r == Abort(PortOutOfRange) <==> o.ip != Unset && o.socketIp != Unset && !PortAllowed(o.port)
    ensures r == Abort(SocketPortOutOfRange) <==>
              o.ip != Unset && o.socketIp != Unset && PortAllowed(o.port) && !PortAllowed(o.socketPort)
  {
    if o.ip == Unset then Abort(IpMissing)
    else if o.socketIp == Unset then Abort(SocketIpMissing)
    else if o.port < 1024 || o.port > 65535 then Abort(PortOutOfRange)
    else if o.socketPort < 1024 || o.socketPort > 65535 then Abort(SocketPortOutOfRange)
    else Listen(o)
  }

  /**
   * Left at their defaults the options never start the server: the missing
   * address is reported first, and once both addresses are given the
   * default port 0 is still refused.
   */
  lemma DefaultsNeverListen(ip: string, socketIp: string)
    requires ip != Unset && socketIp != Unset
    ensures ValidateStartup(DefaultOptions) == Abort(IpMissing)
    ensures ValidateStartup(DefaultOptions.(ip := ip)) == Abort(SocketIpMissing)
    ensures ValidateStartup(DefaultOptions.(ip := ip, socketIp := socketIp)) == Abort(PortOutOfRange)
    ensures forall p :: PortAllowed(p) ==>
              ValidateStartup(DefaultOptions.(ip := ip, socketIp := socketIp, port := p)) == Abort(SocketPortOutOfRange)
  {
  }
}
