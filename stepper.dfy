/**
 * The WP_Stepper request handler: the settings memo, the IP check, the key
 * gate and the JSON body carrying the angle.
 *
 * What the handler takes from its environment is passed in: the stored
 * option as json_decode returns it (`decoded`), the request inputs, the IP
 * validator and the user count.
 */
module Stepper {
  import opened Wrappers
  import opened Php
  import opened Settings
  import opened AccessGate
  import opened DegreeMapper

  /**
   * What the handler ends with: nothing written by it (WordPress's own
   * trailing output is not modelled), the JSON body written before the script
   * stops, or PHP's division-by-zero error.
   */
  datatype Outcome = NoResponse | Body(text: string) | DivisionByZeroError

  /** The text that opens every body. */
  const BodyPrefix: string := "{\"count\":"

  /** The body written for an angle: {"count":N} with N in decimal. */
  function CountBody(degrees: int): string {
    BodyPrefix + IntToString(degrees) + "}"
  }

  /**
   * How a client reads the angle back from a body: the text between the
   * prefix and the closing brace, read as an integer.
   */
  function ReadCount(text: string): Option<int> {
    if |text| > |BodyPrefix| && text[..|BodyPrefix|] == BodyPrefix && text[|text| - 1] == '}' then
      Some(IntVal(Str(text[|BodyPrefix|..|text| - 1])))
    else
      None
  }

  /** Reading a written body gives back its angle. */
  lemma ReadCountOfCountBody(degrees: int)
    ensures ReadCount(CountBody(degrees)) == Some(degrees)
  {
    var text := CountBody(degrees);
    assert text[..|BodyPrefix|] == BodyPrefix;
    assert text[|BodyPrefix|..|text| - 1] == IntToString(degrees);
    IntValOfIntToString(degrees);
  }

  /**
   * process_ajax on settings already loaded: the IP check first, then the
   * key, then the conversion of the count.
   */
  function Respond(s: SettingsMap, req: Request, isValidIp: string -> bool, count: nat): Outcome {
    if !IpAllowed(Get(s, "ip"), req, isValidIp) then NoResponse
    else if !KeyAccepted(req.key, Get(s, "key")) then NoResponse
    else
      match ToDegrees(count, MaxScale(s))
      case DivisionByZero => DivisionByZeroError
      case Degrees(d) => Body(CountBody(d))
  }

  /**
   * Nothing is written, and the division never happens, unless the request
   * passes both the IP check and the key gate.
   */
  lemma RespondOnlyWhenAdmitted(s: SettingsMap, req: Request, isValidIp: string -> bool, count: nat)
    ensures Respond(s, req, isValidIp, count) != NoResponse <==>
      IpAllowed(Get(s, "ip"), req, isValidIp) && KeyAccepted(req.key, Get(s, "key"))
  {
  }

  /**
   * With a positive scale an admitted request gets exactly {"count":N}, where
   * N is the angle in 0..359 written with one to three digits, and reading the
   * body gives that angle back.
   */
  lemma RespondBody(s: SettingsMap, req: Request, isValidIp: string -> bool, count: nat)
    requires IpAllowed(Get(s, "ip"), req, isValidIp) && KeyAccepted(req.key, Get(s, "key"))
    requires 0 < MaxScale(s)
    ensures ToDegrees(count, MaxScale(s)).Degrees?
    ensures var d := ToDegrees(count, MaxScale(s)).value;
      && 0 <= d <= MaxDegrees
      && Respond(s, req, isValidIp, count) == Body(BodyPrefix + NatToString(d) + "}")
      && ReadCount(Respond(s, req, isValidIp, count).text) == Some(d)
    ensures 11 <= |Respond(s, req, isValidIp, count).text| <= 13
  {
    ToDegreesInRange(count, MaxScale(s));
    ReadCountOfCountBody(ToDegrees(count, MaxScale(s)).value);
  }

  /** An admitted request under a scale that converts to 0 ends in the division error. */
  lemma RespondZeroScale(s: SettingsMap, req: Request, isValidIp: string -> bool, count: nat)
    requires IpAllowed(Get(s, "ip"), req, isValidIp) && KeyAccepted(req.key, Get(s, "key"))
    requires MaxScale(s) == 0
    ensures Respond(s, req, isValidIp, count) == DivisionByZeroError
  {
  }

  /**
   * Under the defaults (no key, no ip, scale 100) exactly the requests
   * without a key are answered, whatever their address; a non-scalar key,
   * which filter_input turns into false, is not identical to null.
   */
  lemma DefaultsAnswerKeylessRequests(req: Request, isValidIp: string -> bool, count: nat)
    ensures Respond(Defaults, req, isValidIp, count).Body? <==> req.key.Absent?
    ensures req.key.Absent? ==> Respond(Defaults, req, isValidIp, count) == Body(CountBody(ToDegrees(count, 100).value))
  {
    assert Get(Defaults, "ip") == Null && Get(Defaults, "key") == Null;
    assert MaxScale(Defaults) == 100;
    ToDegreesInRange(count, 100);
  }

  /** The plugin object; its one field memoises the settings. */
  class WpStepper {
    var settings: SettingsMap

    constructor ()
      ensures settings == map[]
    {
      settings := map[];
    }

    /** get_settings: load and merge the stored option on the first call, then keep it. */
    method GetSettings(decoded: Value) returns (s: SettingsMap)
      modifies this
      ensures settings == Cached(old(settings), decoded)
      ensures s == settings
    {
      if settings == map[] {
        settings := ParseArgs(decoded);
      }
      s := settings;
    }

    /** check_ip: the IP check against the ip setting. */
    method CheckIp(decoded: Value, req: Request, isValidIp: string -> bool) returns (ok: bool)
      modifies this
      ensures settings == Cached(old(settings), decoded)
      ensures ok == IpAllowed(Get(settings, "ip"), req, isValidIp)
    {
      var s := GetSettings(decoded);
      ok := IpAllowed(Get(s, "ip"), req, isValidIp);
    }

    /** convert_to_degrees: the count scaled by the max setting. */
    method ConvertToDegrees(decoded: Value, count: nat) returns (c: Conversion)
      modifies this
      ensures settings == Cached(old(settings), decoded)
      ensures c == ToDegrees(count, MaxScale(settings))
    {
      var s := GetSettings(decoded);
      c := ToDegrees(count, MaxScale(s));
    }

    /**
     * process_ajax. Each step reads the settings through get_settings, as the
     * plugin does; all of them see the settings of the first call.
     */
    method ProcessAjax(decoded: Value, req: Request, isValidIp: string -> bool, count: nat) returns (o: Outcome)
      modifies this
      ensures settings == Cached(old(settings), decoded)
      ensures o == Respond(settings, req, isValidIp, count)
    {
      var ipOk := CheckIp(decoded, req, isValidIp);
      if !ipOk {
        return NoResponse;
      }
      var s := GetSettings(decoded);
      if !KeyAccepted(req.key, Get(s, "key")) {
        return NoResponse;
      }
      var c := ConvertToDegrees(decoded, count);
      match c
      case DivisionByZero => o := DivisionByZeroError;
      case Degrees(d) => o := Body(CountBody(d));
    }
  }
}
