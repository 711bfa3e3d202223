/**
 * The access gate: the optional source-IP allow-check and the shared-secret
 * key comparison that decide whether a request is answered.
 *
 * Request inputs arrive through filter_input(), which yields the string when
 * the variable is present (and, with FILTER_VALIDATE_IP, a valid address)
 * and null or false otherwise. For the two addresses both of the latter are
 * `None`, since empty() treats them alike; for the key, which is compared with
 * `!==`, they stay apart (`KeyInput`). Whether a string is a valid IP address
 * is the parameter `isValidIp`.
 */
module AccessGate {
  import opened Wrappers
  import opened Php

  /**
   * filter_input(INPUT_GET, 'key'): null when the parameter is absent, false
   * when it is not a scalar (`?key[]=x`), the string otherwise.
   */
  datatype KeyInput = Absent | Rejected | Given(s: string)

  /** What the gate reads from an incoming request. */
  datatype Request = Request(
    key: KeyInput,                 // the `key` query parameter
    forwardedFor: Option<string>,  // the X-Forwarded-For header
    remoteAddr: Option<string>)    // the address of the direct connection

  /** filter_input(INPUT_SERVER, name, FILTER_VALIDATE_IP). */
  function FilterIp(addr: Option<string>, isValidIp: string -> bool): Option<string> {
    if addr.Some? && isValidIp(addr.value) then addr else None
  }

  /** PHP's empty() on what filter_input returned: null, false, "" or "0". */
  predicate EmptyInput(o: Option<string>) {
    o.None? || IsEmpty(Str(o.value))
  }

  /** An address the IP check can use: present, valid and not empty(). */
  predicate Usable(addr: Option<string>, isValidIp: string -> bool) {
    addr.Some? && isValidIp(addr.value) && !IsEmpty(Str(addr.value))
  }

  /**
   * check_ip, given the stored `ip` setting. A setting that is empty() admits
   * every request. Otherwise the forwarded-for address is used when it is
   * usable, the direct address when it is not, no request is admitted when
   * neither is, and the chosen address must be identical to the setting.
   */
  function IpAllowed(ipSetting: Value, req: Request, isValidIp: string -> bool): (ok: bool)
    ensures IsEmpty(ipSetting) ==> ok
    ensures !IsEmpty(ipSetting) && Usable(req.forwardedFor, isValidIp) ==>
      (ok <==> ipSetting == Str(req.forwardedFor.value))
    ensures !IsEmpty(ipSetting) && !Usable(req.forwardedFor, isValidIp) && Usable(req.remoteAddr, isValidIp) ==>
      (ok <==> ipSetting == Str(req.remoteAddr.value))
    ensures !IsEmpty(ipSetting) && !Usable(req.forwardedFor, isValidIp) && !Usable(req.remoteAddr, isValidIp) ==>
      !ok
  {
    if IsEmpty(ipSetting) then true
    else
      var forwarded := FilterIp(req.forwardedFor, isValidIp);
      var ip := if EmptyInput(forwarded) then FilterIp(req.remoteAddr, isValidIp) else forwarded;
      if EmptyInput(ip) then false
      else Str(ip.value) == ipSetting
  }

  /**
   * An admitted request with an IP configured came from exactly that address,
   * and the address is a valid one taken from the request.
   */
  lemma IpAllowedIsSound(ipSetting: Value, req: Request, isValidIp: string -> bool)
    requires IpAllowed(ipSetting, req, isValidIp) && !IsEmpty(ipSetting)
    ensures ipSetting.Str? && isValidIp(ipSetting.s)
    ensures req.forwardedFor == Some(ipSetting.s) || req.remoteAddr == Some(ipSetting.s)
  {
  }

  /**
   * The forwarded-for header is supplied by the client, and alone it decides
   * the check: a request naming the configured address in it is admitted
   * whatever its direct address is.
   */
  lemma ForwardedForDecides(ip: string, req: Request, isValidIp: string -> bool)
    requires isValidIp(ip) && !IsEmpty(Str(ip)) && req.forwardedFor == Some(ip)
    ensures IpAllowed(Str(ip), req, isValidIp)
  {
  }

  /** The key input as the PHP value filter_input returns. */
  function KeyValue(provided: KeyInput): Value {
    match provided
    case Absent => Null
    case Rejected => Bool(false)
    case Given(s) => Str(s)
  }

  /**
   * The key gate: the provided key must be identical (`===`) to the stored
   * one, so a stored string matches only the same string, the default null
   * matches only an absent key, a stored false matches only a non-scalar key,
   * and a stored key of any other type matches nothing.
   */
  function KeyAccepted(provided: KeyInput, stored: Value): (ok: bool)
    ensures ok <==> KeyValue(provided) == stored
    ensures stored.Null? ==> (ok <==> provided.Absent?)
    ensures stored.Str? ==> (ok <==> provided == Given(stored.s))
    ensures stored == Bool(false) ==> (ok <==> provided.Rejected?)
    ensures !stored.Null? && !stored.Str? && stored != Bool(false) ==> !ok
  {
    match stored
    case Null => provided.Absent?
    case Str(s) => provided == Given(s)
    case Bool(b) => !b && provided.Rejected?
    case _ => false
  }
}
