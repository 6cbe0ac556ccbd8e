/**
 * `get_glances_data` (bot.py): four requests to a Glances server (CPU,
 * memory, IP, uptime), one retry of all four at API v4 when any answer is
 * 404, and the normalisation of the JSON shapes the two API versions return.
 */
module Glances {
  import opened Outcomes
  import opened JsonValues
  import opened Text

  // ---------------------------------------------------------------------
  // Python's operations on decoded JSON

  /** The exceptions the normaliser can meet. Only ValueError is caught by it. */
  datatype PyError =
    | ValueError(message: string)
    | TypeError
    | AttributeError
    | ZeroDivisionError

  /** `key in s` on a string: `key` occurs in `s`. */
  predicate Occurs(key: string, s: string)
    decreases |s|
  {
    (|key| <= |s| && s[..|key|] == key) || (s != [] && Occurs(key, s[1..]))
  }

  /**
   * `key in x`: a key of a dict, an element of a list, a substring of a str;
   * numbers, booleans and None are not iterable.
   */
  function Contains(x: Json, key: string): (r: Result<bool, PyError>)
    ensures r.Err? <==> !(x.JObj? || x.JArr? || x.JStr?)
    ensures r.Err? ==> r.error == TypeError
    ensures x.JObj? ==> r == Ok(key in x.fields)
  {
    match x
    case JObj(fields) => Ok(key in fields)
    case JArr(items) => Ok(JStr(key) in items)
    case JStr(s) => Ok(Occurs(key, s))
    case _ => Err(TypeError)
  }

  /** `x[key]` after `key in x` held: a dict gives the value, a list or str raises TypeError. */
  function Subscript(x: Json, key: string): (r: Result<Json, PyError>)
    requires Contains(x, key) == Ok(true)
    ensures r.Ok? <==> x.JObj?
    ensures r.Ok? ==> key in x.fields && r.value == x.fields[key]
  {
    if x.JObj? then Ok(x.fields[key]) else Err(TypeError)
  }

  /** `x.get(key, default)`: only a dict has `get`. */
  function Get(x: Json, key: string, default: Json): (r: Result<Json, PyError>)
    ensures r.Ok? <==> x.JObj?
    ensures x.JObj? && key in x.fields ==> r == Ok(x.fields[key])
    ensures x.JObj? && key !in x.fields ==> r == Ok(default)
    ensures r.Err? ==> r.error == AttributeError
  {
    if x.JObj? then Ok(if key in x.fields then x.fields[key] else default) else Err(AttributeError)
  }

  /** `a / b`: numbers only, and a zero divisor raises. */
  function Divide(a: Json, b: Json): (r: Result<(real, real), PyError>)
    ensures r.Ok? <==> Numeric(a).Some? && Numeric(b).Some? && Numeric(b).value != 0.0
    ensures r.Ok? ==> r.value == (Numeric(a).value, Numeric(b).value)
    ensures Numeric(a).None? || Numeric(b).None? ==> r == Err(TypeError)
  {
    match (Numeric(a), Numeric(b))
    case (Some(x), Some(y)) => if y == 0.0 then Err(ZeroDivisionError) else Ok((x, y))
    case _ => Err(TypeError)
  }

  const FormatCodeError := "Unknown format code 'f' for object of type 'str'"

  /** `f"{x:.1f}"`: a number or a boolean; a str raises ValueError, anything else TypeError. */
  function FormatFixed(x: Json): (r: Result<real, PyError>)
    ensures r.Ok? <==> Numeric(x).Some?
    ensures r.Ok? ==> r.value == Numeric(x).value
    ensures x.JStr? ==> r == Err(ValueError(FormatCodeError))
  {
    match Numeric(x)
    case Some(v) => Ok(v)
    case None => if x.JStr? then Err(ValueError(FormatCodeError)) else Err(TypeError)
  }

  // ---------------------------------------------------------------------
  // The four readings

  const CpuUnrecognised := "Estructura de datos de CPU no reconocida"
  const MemUnrecognised := "Estructura de datos de memoria no reconocida"
  const NotAvailable := JStr("No disponible")

  /** `cpu_usage`: the bare object's `total`, else the first list element's `total`. */
  function CpuUsage(cpu: Json): (r: Result<Json, PyError>)
    ensures r.Err? ==> r.error == TypeError || r.error == ValueError(CpuUnrecognised)
    ensures !(cpu.JObj? || cpu.JArr? || cpu.JStr?) ==> r == Err(TypeError)
    ensures r.Ok? ==>
              (cpu.JObj? && "total" in cpu.fields && r.value == cpu.fields["total"]) ||
              (cpu.JArr? && |cpu.items| > 0 && cpu.items[0].JObj? && "total" in cpu.items[0].fields &&
               r.value == cpu.items[0].fields["total"])
  {
    match Contains(cpu, "total")
    case Err(e) => Err(e)
    case Ok(true) => Subscript(cpu, "total")
    case Ok(false) =>
      if cpu.JArr? && |cpu.items| > 0 then
        var first := cpu.items[0];
        match Contains(first, "total")
        case Err(e) => Err(e)
        case Ok(true) => Subscript(first, "total")
        case Ok(false) => Err(ValueError(CpuUnrecognised))
      else Err(ValueError(CpuUnrecognised))
  }

  /** `'used' in x and 'total' in x`, with Python's short circuit. */
  function HasUsedAndTotal(x: Json): Result<bool, PyError>
  {
    match Contains(x, "used")
    case Err(e) => Err(e)
    case Ok(false) => Ok(false)
    case Ok(true) => Contains(x, "total")
  }

  /** `x['used'] / x['total']`, once both keys were found: the pair divided. */
  function UsedOverTotal(x: Json): Result<(real, real), PyError>
    requires HasUsedAndTotal(x) == Ok(true)
  {
    match Subscript(x, "used")
    case Err(e) => Err(e)
    case Ok(used) =>
      match Subscript(x, "total")
      case Err(e) => Err(e)
      case Ok(total) => Divide(used, total)
  }

  /** `mem_usage`, kept as the `(used, total)` pair it is computed from. */
  function MemUsage(mem: Json): (r: Result<(real, real), PyError>)
    ensures r.Err? ==> r.error in {ValueError(MemUnrecognised), TypeError, ZeroDivisionError}
    ensures !(mem.JObj? || mem.JArr? || mem.JStr?) ==> r == Err(TypeError)
    ensures r.Ok? ==> r.value.1 != 0.0
  {
    match HasUsedAndTotal(mem)
    case Err(e) => Err(e)
    case Ok(true) => UsedOverTotal(mem)
    case Ok(false) =>
      if mem.JArr? && |mem.items| > 0 then
        var first := mem.items[0];
        match HasUsedAndTotal(first)
        case Err(e) => Err(e)
        case Ok(true) => UsedOverTotal(first)
        case Ok(false) => Err(ValueError(MemUnrecognised))
      else Err(ValueError(MemUnrecognised))
  }

  /** `uptime`: a bare string, a dict's `uptime`, the first list element, else "No disponible". */
  function Uptime(up: Json): (r: Result<Json, PyError>)
    ensures r.Err? ==> up.JArr? && r.error == AttributeError
    ensures up.JStr? ==> r == Ok(up)
    ensures up.JObj? && "uptime" in up.fields ==> r == Ok(up.fields["uptime"])
    ensures up.JArr? && up.items != [] && up.items[0].JStr? ==> r == Ok(up.items[0])
    ensures up.JArr? && up.items != [] && up.items[0].JObj? ==>
              r == Ok(if "uptime" in up.items[0].fields then up.items[0].fields["uptime"] else NotAvailable)
    ensures r.Ok? ==>
              r.value == NotAvailable || r.value == up ||
              (up.JObj? && "uptime" in up.fields && r.value == up.fields["uptime"]) ||
              (up.JArr? && up.items != [] &&
               (r.value == up.items[0] || (up.items[0].JObj? && "uptime" in up.items[0].fields &&
                                           r.value == up.items[0].fields["uptime"])))
  {
    match up
    case JStr(_) => Ok(up)
    case JObj(fields) => Ok(if "uptime" in fields then fields["uptime"] else NotAvailable)
    case JArr(items) =>
      if items == [] then Ok(NotAvailable)
      else if items[0].JStr? then Ok(items[0])
      else Get(items[0], "uptime", NotAvailable)
    case _ => Ok(NotAvailable)
  }

  // ---------------------------------------------------------------------
  // Requests and the result

  /** One answered request: its status code and its decoded body. */
  datatype Reply = Reply(status: nat, body: Json)

  /** What `requests.get` does: answer, or raise a RequestException. */
  datatype Attempt = Answered(reply: Reply) | Unreachable(reason: string)

  /** What the four requests of one API version would do, in the order they are made. */
  datatype Round = Round(cpu: Attempt, mem: Attempt, ip: Attempt, uptime: Attempt)

  /** The four answers of one API version. */
  datatype Replies = Replies(cpu: Reply, mem: Reply, ip: Reply, uptime: Reply)

  /** The parsed readings; the two percentages are left as the values they are computed from. */
  datatype Readings = Readings(cpu: real, memUsed: real, memTotal: real, publicIp: Json, privateIp: Json, uptime: Json)

  /** What `get_glances_data` returns, or the exception that escapes it. */
  datatype Outcome =
    | Metrics(readings: Readings)                            // "Uso de CPU: …"
    | BadStatus(cpu: nat, mem: nat, ip: nat, uptime: nat)    // "Error al obtener datos. Códigos de estado - …"
    | ConnectFailed(reason: string)                          // "Error al conectar con Glances: …"
    | ProcessFailed(reason: string)                          // "Error al procesar datos de Glances: …"
    | Escaped(error: PyError)                                // not caught: TypeError, AttributeError, ZeroDivisionError

  /** The four requests, in order: the first that cannot be made raises and stops the rest. */
  function Query(r: Round): (q: Result<Replies, string>)
    ensures q.Ok? <==> r.cpu.Answered? && r.mem.Answered? && r.ip.Answered? && r.uptime.Answered?
    ensures q.Ok? ==> q.value == Replies(r.cpu.reply, r.mem.reply, r.ip.reply, r.uptime.reply)
  {
    if r.cpu.Unreachable? then Err(r.cpu.reason)
    else if r.mem.Unreachable? then Err(r.mem.reason)
    else if r.ip.Unreachable? then Err(r.ip.reason)
    else if r.uptime.Unreachable? then Err(r.uptime.reason)
    else Ok(Replies(r.cpu.reply, r.mem.reply, r.ip.reply, r.uptime.reply))
  }

  predicate AnyNotFound(rs: Replies)
  {
    rs.cpu.status == 404 || rs.mem.status == 404 || rs.ip.status == 404 || rs.uptime.status == 404
  }

  predicate AllOk(rs: Replies)
  {
    rs.cpu.status == 200 && rs.mem.status == 200 && rs.ip.status == 200 && rs.uptime.status == 200
  }

  /** The parsing of the four bodies, in the order the source evaluates them. */
  function Decode(rs: Replies): Result<Readings, PyError>
  {
    match CpuUsage(rs.cpu.body)
    case Err(e) => Err(e)
    case Ok(cpu) =>
      match MemUsage(rs.mem.body)
      case Err(e) => Err(e)
      case Ok(mem) =>
        match Get(rs.ip.body, "public_address", NotAvailable)
        case Err(e) => Err(e)
        case Ok(publicIp) =>
          match Get(rs.ip.body, "address", NotAvailable)
          case Err(e) => Err(e)
          case Ok(privateIp) =>
            match Uptime(rs.uptime.body)
            case Err(e) => Err(e)
            case Ok(uptime) =>
              match FormatFixed(cpu)
              case Err(e) => Err(e)
              case Ok(cpuValue) => Ok(Readings(cpuValue, mem.0, mem.1, publicIp, privateIp, uptime))
  }

  /** The status test and the parsing, with the ValueError handler. */
  function Settle(rs: Replies): Outcome
  {
    if !AllOk(rs) then BadStatus(rs.cpu.status, rs.mem.status, rs.ip.status, rs.uptime.status)
    else
      match Decode(rs)
      case Ok(readings) => Metrics(readings)
      case Err(ValueError(message)) => ProcessFailed(message)
      case Err(e) => Escaped(e)
  }

  /** `get_glances_data`, given what each request of each API version would do. */
  function GlancesData(v3: Round, v4: Round): Outcome
  {
    match Query(v3)
    case Err(reason) => ConnectFailed(reason)
    case Ok(replies) =>
      if !AnyNotFound(replies) then Settle(replies)
      else
        match Query(v4)
        case Err(reason) => ConnectFailed(reason)
        case Ok(retried) => Settle(retried)
  }

  /**
   * `get_glances_data` as the source runs it: the imperative counterpart of
   * `GlancesData`, in which the four `*_response` variables are reassigned
   * by the v4 retry.
   */
  method GetGlancesData(v3: Round, v4: Round) returns (result: Outcome)
    ensures result == GlancesData(v3, v4)
  {
    var answered := Query(v3);
    if answered.Err? {
      return ConnectFailed(answered.error);
    }
    var cpu, mem, ip, uptime := answered.value.cpu, answered.value.mem, answered.value.ip, answered.value.uptime;
    if cpu.status == 404 || mem.status == 404 || ip.status == 404 || uptime.status == 404 {
      answered := Query(v4);
      if answered.Err? {
        return ConnectFailed(answered.error);
      }
      cpu, mem, ip, uptime := answered.value.cpu, answered.value.mem, answered.value.ip, answered.value.uptime;
    }
    var replies := Replies(cpu, mem, ip, uptime);
    if cpu.status == 200 && mem.status == 200 && ip.status == 200 && uptime.status == 200 {
      match Decode(replies) {
        case Ok(readings) => result := Metrics(readings);
        case Err(ValueError(message)) => result := ProcessFailed(message);
        case Err(e) => result := Escaped(e);
      }
    } else {
      result := BadStatus(cpu.status, mem.status, ip.status, uptime.status);
    }
  }

  /** The four status codes, as the status failure lists them after its lead. */
  function StatusCodes(cpu: nat, mem: nat, ip: nat, uptime: nat): string
  {
    "Códigos de estado - CPU: " + NatToString(cpu) + ", RAM: " + NatToString(mem) +
    ", IP: " + NatToString(ip) + ", Uptime: " + NatToString(uptime)
  }

  /** The returned string of the three failures the function itself reports. */
  function ErrorText(o: Outcome): (text: Option<string>)
    ensures text.Some? <==> o.BadStatus? || o.ConnectFailed? || o.ProcessFailed?
  {
    match o
    case BadStatus(cpu, mem, ip, uptime) => Some("Error al obtener datos. " + StatusCodes(cpu, mem, ip, uptime))
    case ConnectFailed(reason) => Some("Error al conectar con Glances: " + reason)
    case ProcessFailed(reason) => Some("Error al procesar datos de Glances: " + reason)
    case _ => None
  }

  // ---------------------------------------------------------------------
  // What the normaliser promises

  /** The answers the status test looks at: v3's, or v4's after a 404; none when a request raised. */
  function UsedReplies(v3: Round, v4: Round): (used: Option<Replies>)
    ensures used.None? <==> Query(v3).Err? || (AnyNotFound(Query(v3).value) && Query(v4).Err?)
    ensures used.Some? ==>
              (used.value == Query(v3).value && !AnyNotFound(used.value)) ||
              (AnyNotFound(Query(v3).value) && Query(v4) == Ok(used.value))
  {
    match Query(v3)
    case Err(_) => None
    case Ok(replies) =>
      if !AnyNotFound(replies) then Some(replies)
      else if Query(v4).Ok? then Some(Query(v4).value) else None
  }

  /** Without a 404 at v3 the v4 endpoints are never asked. */
  lemma NoRetryWithoutNotFound(v3: Round, v4: Round, other: Round)
    requires Query(v3).Ok? && !AnyNotFound(Query(v3).value)
    ensures GlancesData(v3, v4) == GlancesData(v3, other)
    ensures UsedReplies(v3, v4) == Some(Query(v3).value)
  {
  }

  /**
   * After a 404 at v3 the v3 replies no longer matter: any v3 round that
   * also answered with a 404 gives the same result, the one of the v4 round.
   */
  lemma RetryIgnoresFirstRound(v3: Round, w3: Round, v4: Round)
    requires Query(v3).Ok? && AnyNotFound(Query(v3).value)
    requires Query(w3).Ok? && AnyNotFound(Query(w3).value)
    ensures GlancesData(v3, v4) == GlancesData(w3, v4)
    ensures Query(v4).Ok? ==> GlancesData(v3, v4) == Settle(Query(v4).value)
    ensures Query(v4).Err? ==> GlancesData(v3, v4) == ConnectFailed(Query(v4).error)
  {
  }

  /**
   * Readings, or a parsing failure, come only from four 200 answers; a bad
   * status lists the four codes of the answers looked at; a connection
   * failure means some request raised. There is one retry only: a 404 at v4
   * is reported, not retried.
   */
  lemma OutcomeMatchesStatuses(v3: Round, v4: Round)
    ensures var o, used := GlancesData(v3, v4), UsedReplies(v3, v4);
            && (o.Metrics? || o.ProcessFailed? || o.Escaped? ==> used.Some? && AllOk(used.value))
            && (o.BadStatus? ==> used.Some? && !AllOk(used.value) &&
                                 o == BadStatus(used.value.cpu.status, used.value.mem.status,
                                                used.value.ip.status, used.value.uptime.status))
            && (o.ConnectFailed? <==> used.None?)
            && (used.Some? && AnyNotFound(used.value) ==> o.BadStatus?)
  {
  }

  /** The CPU reading comes from one of the two shapes, never from anywhere else. */
  lemma CpuShapes(cpu: Json)
    ensures CpuUsage(cpu).Ok? <==>
              (cpu.JObj? && "total" in cpu.fields) ||
              (cpu.JArr? && |cpu.items| > 0 && JStr("total") !in cpu.items &&
               cpu.items[0].JObj? && "total" in cpu.items[0].fields)
    ensures cpu.JObj? ==> CpuUsage(cpu) == if "total" in cpu.fields then Ok(cpu.fields["total"]) else Err(ValueError(CpuUnrecognised))
    ensures cpu.JArr? && |cpu.items| > 0 && JStr("total") !in cpu.items && cpu.items[0].JObj? ==>
              CpuUsage(cpu) == if "total" in cpu.items[0].fields then Ok(cpu.items[0].fields["total"])
                               else Err(ValueError(CpuUnrecognised))
  {
  }

  /** Memory needs both keys in one object of one of the two shapes, and a non-zero numeric total. */
  lemma MemShapes(mem: Json)
    ensures MemUsage(mem).Ok? ==>
              var o := if mem.JObj? then mem else mem.items[0];
              (mem.JObj? || (mem.JArr? && |mem.items| > 0)) && o.JObj? &&
              "used" in o.fields && "total" in o.fields &&
              MemUsage(mem).value == (Numeric(o.fields["used"]).value, Numeric(o.fields["total"]).value) &&
              MemUsage(mem).value.1 != 0.0
    ensures mem.JObj? && "used" in mem.fields && "total" in mem.fields &&
            Numeric(mem.fields["used"]).Some? && Numeric(mem.fields["total"]).Some? &&
            Numeric(mem.fields["total"]).value != 0.0 ==>
              MemUsage(mem) == Ok((Numeric(mem.fields["used"]).value, Numeric(mem.fields["total"]).value))
    ensures mem.JArr? && |mem.items| > 0 && JStr("used") !in mem.items && mem.items[0].JObj? &&
            "used" in mem.items[0].fields && "total" in mem.items[0].fields &&
            Numeric(mem.items[0].fields["used"]).Some? && Numeric(mem.items[0].fields["total"]).Some? &&
            Numeric(mem.items[0].fields["total"]).value != 0.0 ==>
              MemUsage(mem) == Ok((Numeric(mem.items[0].fields["used"]).value,
                                   Numeric(mem.items[0].fields["total"]).value))
    ensures mem.JObj? && ("used" !in mem.fields || "total" !in mem.fields) ==> MemUsage(mem) == Err(ValueError(MemUnrecognised))
    ensures mem.JArr? && |mem.items| > 0 && JStr("used") !in mem.items && mem.items[0].JObj? &&
            ("used" !in mem.items[0].fields || "total" !in mem.items[0].fields) ==>
              MemUsage(mem) == Err(ValueError(MemUnrecognised))
    ensures mem.JObj? && "used" in mem.fields && "total" in mem.fields && Numeric(mem.fields["total"]) == Some(0.0) ==>
              MemUsage(mem) == Err(if Numeric(mem.fields["used"]).Some? then ZeroDivisionError else TypeError)
    ensures mem.JArr? && |mem.items| > 0 && JStr("used") !in mem.items && mem.items[0].JObj? &&
            "used" in mem.items[0].fields && "total" in mem.items[0].fields &&
            Numeric(mem.items[0].fields["total"]) == Some(0.0) ==>
              MemUsage(mem) == Err(if Numeric(mem.items[0].fields["used"]).Some? then ZeroDivisionError else TypeError)
  {
  }

  /**
   * The uptime falls back to "No disponible" instead of failing; the one
   * shape it cannot read is a list whose first element is neither a string
   * nor an object, where `.get` raises AttributeError.
   */
  lemma UptimeFallsBack(up: Json)
    ensures Uptime(up).Err? <==> up.JArr? && up.items != [] && !up.items[0].JStr? && !up.items[0].JObj?
    ensures Uptime(up).Err? ==> Uptime(up).error == AttributeError
    ensures up.JObj? && "uptime" !in up.fields ==> Uptime(up) == Ok(NotAvailable)
    ensures up.JNull? || up.JNum? || up.JBool? || up == JArr([]) ==> Uptime(up) == Ok(NotAvailable)
  {
  }

  /** The only ValueErrors are the three the source names, so "Error al procesar" carries one of them. */
  lemma ProcessFailureReasons(rs: Replies)
    ensures Decode(rs).Err? && Decode(rs).error.ValueError? ==>
              Decode(rs).error.message in {CpuUnrecognised, MemUnrecognised, FormatCodeError}
    ensures Settle(rs).ProcessFailed? ==> Settle(rs).reason in {CpuUnrecognised, MemUnrecognised, FormatCodeError}
  {
  }

  /** A text that begins with a known lead has that lead's characters. */
  lemma Leads(lead: string, rest: string)
    requires |lead| > 9
    ensures (lead + rest)[..5] == lead[..5] && (lead + rest)[9] == lead[9]
  {
  }

  /** The tenth character of a failure text tells its kind: "Error al obtener", "conectar", "procesar". */
  lemma ErrorTextHead(o: Outcome)
    requires ErrorText(o).Some?
    ensures var t := ErrorText(o).value;
            |t| > 9 && t[..5] == "Error" &&
            t[9] == (if o.BadStatus? then 'o' else if o.ConnectFailed? then 'c' else 'p')
  {
    match o
    case BadStatus(cpu, mem, ip, uptime) => Leads("Error al obtener datos. ", StatusCodes(cpu, mem, ip, uptime));
    case ConnectFailed(reason) => Leads("Error al conectar con Glances: ", reason);
    case ProcessFailed(reason) => Leads("Error al procesar datos de Glances: ", reason);
  }

  /**
   * Each failure the function reports starts with "Error", and the three
   * kinds of failure text never coincide.
   */
  lemma ErrorTextsDistinct(a: Outcome, b: Outcome)
    requires ErrorText(a).Some? && ErrorText(b).Some?
    ensures ErrorText(a).value[..5] == "Error"
    ensures ErrorText(a) == ErrorText(b) ==>
              (a.BadStatus? <==> b.BadStatus?) && (a.ConnectFailed? <==> b.ConnectFailed?) &&
              (a.ProcessFailed? <==> b.ProcessFailed?)
  {
    ErrorTextHead(a);
    ErrorTextHead(b);
  }
}
