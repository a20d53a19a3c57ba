/**
 * The Xymon status-message builder and client (pyxymon.py).
 *
 * `XymonMessage` accumulates an HTML body, an optional footer, a severity
 * colour that only ratchets upward and an optional lifetime, and renders
 * them as one line of the Xymon `status` command.  `XymonClient` owns a
 * message and resolves the server and port from the environment.
 *
 * The process environment is an explicit `Env` argument and the current
 * date is a string argument.
 */
module Xymon {
  import opened Wrappers
  import opened Text

  type Env = map<string, string>

  // ---------------------------------------------------------------------
  // Colours (criticity levels)
  // ---------------------------------------------------------------------

  const STATUS_OK: string := "&green"
  const STATUS_WARNING: string := "&yellow"
  const STATUS_CRITICAL: string := "&red"

  /** The only legal colours, from the least to the most critical. */
  const ALL_COLORS: seq<string> := [STATUS_OK, STATUS_WARNING, STATUS_CRITICAL]

  const DEFAULT_PORT: int := 1984

  /** The exceptions the module raises. */
  datatype Error =
    | IllegalColor(value: string)     // ValueError from the colour setter
    | NotANumber(value: string)       // ValueError from the lifetime setter
    | MachineNotSet                   // RuntimeError: MACHINE unset or empty
    | ColorCorrupted(value: string)   // RuntimeError from the render-time colour check
    | ServerNotSet                    // RuntimeError: XYMSRV unset or empty
    | InvalidPort(value: string)      // ValueError from int() on XYMONDPORT

  predicate IsColor(value: string) { value in ALL_COLORS }

  /** The position of a colour in ALL_COLORS, as `_ALL_COLORS.index(value)`. */
  function Rank(color: string): (r: nat)
    requires IsColor(color)
    ensures r < |ALL_COLORS| && ALL_COLORS[r] == color
  {
    if color == STATUS_OK then 0 else if color == STATUS_WARNING then 1 else 2
  }

  function Max(a: int, b: int): int { if a < b then b else a }

  /**
   * The colour after the setter is given `value`: an illegal value leaves it
   * as it is, a legal one replaces it only when it is strictly more critical.
   */
  function Ratchet(current: string, value: string): (next: string)
    requires IsColor(current)
    ensures IsColor(next)
    ensures next == current || next == value
    ensures !IsColor(value) ==> next == current
    ensures IsColor(value) ==> Rank(next) == Max(Rank(current), Rank(value))
  {
    if IsColor(value) && Rank(value) > Rank(current) then value else current
  }

  /** The colour after the setter is given each of `values` in turn. */
  function RaiseAll(start: string, values: seq<string>): (c: string)
    requires IsColor(start)
    ensures IsColor(c)
  {
    if |values| == 0 then start
    else Ratchet(RaiseAll(start, values[..|values| - 1]), values[|values| - 1])
  }

  /**
   * After any sequence of sets the colour is the most critical among the
   * starting colour and the legal values passed.
   */
  lemma {:induction false} RaiseAllIsMaximum(start: string, values: seq<string>)
    requires IsColor(start)
    ensures RaiseAll(start, values) == start || RaiseAll(start, values) in values
    ensures Rank(start) <= Rank(RaiseAll(start, values))
    ensures forall v :: v in values && IsColor(v) ==> Rank(v) <= Rank(RaiseAll(start, values))
  {
    if |values| > 0 {
      var init := values[..|values| - 1];
      RaiseAllIsMaximum(start, init);
      assert values == init + [values[|values| - 1]];
    }
  }

  /** Only which colours were passed matters, not their order or repetition. */
  lemma RaiseAllIgnoresOrder(start: string, values: seq<string>, others: seq<string>)
    requires IsColor(start)
    requires forall v :: v in values <==> v in others
    ensures RaiseAll(start, values) == RaiseAll(start, others)
  {
    RaiseAllIsMaximum(start, values);
    RaiseAllIsMaximum(start, others);
    var a, b := RaiseAll(start, values), RaiseAll(start, others);
    assert Rank(a) <= Rank(b) && Rank(b) <= Rank(a);
    assert ALL_COLORS[Rank(a)] == a && ALL_COLORS[Rank(b)] == b;
  }

  /** Setting `values` and then `more` is setting all of them in turn. */
  lemma {:induction false} RaiseAllConcat(start: string, values: seq<string>, more: seq<string>)
    requires IsColor(start)
    ensures RaiseAll(start, values + more) == RaiseAll(RaiseAll(start, values), more)
  {
    if |more| == 0 {
      assert values + more == values;
    } else {
      var init := more[..|more| - 1];
      RaiseAllConcat(start, values, init);
      assert (values + more)[..|values + more| - 1] == values + init;
    }
  }

  /** Once the critical colour has been set, the colour stays critical. */
  lemma RaiseAllCritical(start: string, values: seq<string>)
    requires IsColor(start) && STATUS_CRITICAL in values
    ensures RaiseAll(start, values) == STATUS_CRITICAL
  {
    RaiseAllIsMaximum(start, values);
    assert Rank(STATUS_CRITICAL) <= Rank(RaiseAll(start, values));
  }

  /** Starting green and setting only green keeps it green. */
  lemma RaiseAllOk(values: seq<string>)
    requires forall v :: v in values ==> v == STATUS_OK
    ensures RaiseAll(STATUS_OK, values) == STATUS_OK
  {
    RaiseAllIsMaximum(STATUS_OK, values);
  }

  // ---------------------------------------------------------------------
  // Lifetime
  // ---------------------------------------------------------------------

  /**
   * The lifetime getter: empty when the lifetime is unset or 0 (both falsy
   * in Python), otherwise `+` followed by the decimal lifetime.
   */
  function LifetimeText(lifetime: Option<int>): (text: string)
    ensures text == "" <==> lifetime == None || lifetime == Some(0)
    ensures text != "" ==> text[0] == '+' && text[1..] == Show(lifetime.value)
    ensures text != "" ==> ParseInt(text[1..]) == lifetime
    ensures ' ' !in text && '\n' !in text
  {
    match lifetime
    case None => ""
    case Some(n) =>
      if n == 0 then ""
      else
        var text := "+" + Show(n);
        assert text[1..] == Show(n);
        ParseShow(n);
        text
  }

  // ---------------------------------------------------------------------
  // HTML body
  // ---------------------------------------------------------------------

  /** What `title` and `section` append to the body. */
  datatype Block = TitleBlock(text: string) | SectionBlock(title: string, body: string)

  function Fragment(block: Block): string
  {
    match block
    case TitleBlock(text) => "<br><h1>" + text + "</h1><hr><br>"
    case SectionBlock(title, body) => "<h2>" + title + "</h2><p>" + body + "</p><br>"
  }

  /** The body made of `blocks`, in order. */
  function HtmlOf(blocks: seq<Block>): string
  {
    if |blocks| == 0 then "" else HtmlOf(blocks[..|blocks| - 1]) + Fragment(blocks[|blocks| - 1])
  }

  lemma HtmlOfAppend(blocks: seq<Block>, block: Block)
    ensures HtmlOf(blocks + [block]) == HtmlOf(blocks) + Fragment(block)
  {
    assert (blocks + [block])[..|blocks|] == blocks;
  }

  /** Appending blocks appends their HTML: earlier content is never altered. */
  lemma {:induction false} HtmlOfConcat(blocks: seq<Block>, more: seq<Block>)
    ensures HtmlOf(blocks + more) == HtmlOf(blocks) + HtmlOf(more)
  {
    if |more| == 0 {
      assert blocks + more == blocks;
    } else {
      var init := more[..|more| - 1];
      var last := more[|more| - 1];
      assert more == init + [last];
      AppendAssoc(blocks, init, [last]);
      HtmlOfConcat(blocks, init);
      HtmlOfAppend(blocks + init, last);
      HtmlOfAppend(init, last);
      AppendAssoc(HtmlOf(blocks), HtmlOf(init), Fragment(last));
    }
  }

  /** The body made of four blocks and then `more`. */
  lemma HtmlOfFour(a: Block, b: Block, c: Block, d: Block, more: seq<Block>)
    ensures HtmlOf([a] + [b] + [c] + [d] + more)
            == Fragment(a) + Fragment(b) + Fragment(c) + Fragment(d) + HtmlOf(more)
  {
    HtmlOfOne(a);
    HtmlOfAppend([a], b);
    HtmlOfAppend([a] + [b], c);
    HtmlOfAppend([a] + [b] + [c], d);
    HtmlOfConcat([a] + [b] + [c] + [d], more);
  }

  /** A title fragment opens with `<br>`, a section fragment with `<h2>`. */
  lemma FragmentOpens(block: Block)
    ensures |Fragment(block)| > 4 && Fragment(block)[..4] == if block.TitleBlock? then "<br>" else "<h2>"
    ensures Fragment(block)[1] == if block.TitleBlock? then 'b' else 'h'
  {
  }

  /**
   * A title fragment is told apart from every other fragment: a body never
   * confuses a title with a section, nor two different titles.
   */
  lemma TitleFragmentInjective(a: Block, b: Block)
    requires a.TitleBlock? && Fragment(a) == Fragment(b)
    ensures b == a
  {
    FragmentOpens(a);
    FragmentOpens(b);
    var f := Fragment(a);
    if b.TitleBlock? {
      assert |a.text| == |b.text|;
      assert a.text == f[8..8 + |a.text|] == b.text;
    }
  }

  lemma HtmlOfOne(a: Block)
    ensures HtmlOf([a]) == Fragment(a) && HtmlOf([]) == ""
  {
    HtmlOfAppend([], a);
    assert [] + [a] == [a];
  }

  /** The footer is never empty, so once set it is always rendered. */
  function FooterFragment(checkFilename: string, checkVersion: string): (f: string)
    ensures |f| > 21 && f[..12] == "<br><center>" && f[|f| - 9..] == "</center>"
  {
    "<br><center>xymon script: " + checkFilename + " version " + checkVersion + "</center>"
  }

  // ---------------------------------------------------------------------
  // The wire format and its reader
  // ---------------------------------------------------------------------

  /** The fields of one `status` message. */
  datatype StatusReport = StatusReport(
    lifetime: Option<int>,
    target: string,      // MACHINE.test
    color: string,       // a colour token, with its leading '&'
    date: string,
    html: string)

  /** A colour as written on the wire: without its leading `&`. */
  function ColorName(color: string): (name: string)
    requires IsColor(color)
    ensures "&" + name == color
    ensures ' ' !in name && '\n' !in name
  {
    color[1..]
  }

  /** `{lifetime} {target} {colour} {date}`, the first line after `status`. */
  function Header(report: StatusReport): string
    requires IsColor(report.color)
  {
    LifetimeText(report.lifetime) + " " + (report.target + " " + (ColorName(report.color) + " " + report.date))
  }

  /** `status{lifetime} {target} {colour without '&'} {date}\n{html}\n` */
  function Encode(report: StatusReport): string
    requires IsColor(report.color)
  {
    "status" + Header(report) + "\n" + (report.html + "\n")
  }

  /** Accepts only what the lifetime getter writes: nothing, or `+` and a non-zero `str(n)`. */
  function DecodeLifetime(text: string): Option<Option<int>>
  {
    if text == "" then Some(None)
    else if text[0] == '+' && ParseInt(text[1..]).Some? && ParseInt(text[1..]).value != 0
            && Show(ParseInt(text[1..]).value) == text[1..]
    then Some(ParseInt(text[1..]))
    else None
  }

  /** The fields of the first line after `status`: lifetime, target, colour, date. */
  function DecodeHeader(fields: string): Option<(Option<int>, string, string, string)>
  {
    match Cut(fields, ' ')
    case None => None
    case Some((lifetimeText, afterLifetime)) =>
      match Cut(afterLifetime, ' ')
      case None => None
      case Some((target, afterTarget)) =>
        match Cut(afterTarget, ' ')
        case None => None
        case Some((colorName, date)) =>
          var lifetime := DecodeLifetime(lifetimeText);
          var color := "&" + colorName;
          if lifetime.None? || !IsColor(color) then None
          else Some((lifetime.value, target, color, date))
  }

  /** How a reader of the `status` message recovers its fields. */
  function Decode(wire: string): Option<StatusReport>
  {
    match Cut(wire, '\n')
    case None => None
    case Some((header, rest)) =>
      if |header| < 6 || header[..6] != "status" || |rest| == 0 || rest[|rest| - 1] != '\n' then None
      else match DecodeHeader(header[6..])
        case None => None
        case Some((lifetime, target, color, date)) =>
          Some(StatusReport(lifetime, target, color, date, rest[..|rest| - 1]))
  }

  /** A lifetime of 0 renders like no lifetime at all. */
  function Normalized(report: StatusReport): StatusReport
  {
    if report.lifetime == Some(0) then report.(lifetime := None) else report
  }

  lemma DecodeLifetimeText(lifetime: Option<int>)
    ensures DecodeLifetime(LifetimeText(lifetime)) == Some(if lifetime == Some(0) then None else lifetime)
  {
  }

  /** Whatever lifetime text is accepted is exactly what the getter writes for it. */
  lemma LifetimeTextOfDecode(text: string)
    requires DecodeLifetime(text).Some?
    ensures LifetimeText(DecodeLifetime(text).value) == text
    ensures DecodeLifetime(text).value != Some(0)
  {
    if text != "" {
      assert text == "+" + text[1..];
    }
  }

  /** The header fields are read back, the lifetime normalised. */
  lemma DecodeHeaderOf(report: StatusReport)
    requires IsColor(report.color) && ' ' !in report.target
    ensures DecodeHeader(Header(report))
            == Some((Normalized(report).lifetime, report.target, report.color, report.date))
  {
    var lt := LifetimeText(report.lifetime);
    var name := ColorName(report.color);
    var afterTarget := name + " " + report.date;
    CutAt(lt, ' ', report.target + " " + afterTarget);
    CutAt(report.target, ' ', afterTarget);
    CutAt(name, ' ', report.date);
    DecodeLifetimeText(report.lifetime);
  }

  /** The header line holds no line break when neither the target nor the date does. */
  lemma HeaderOneLine(report: StatusReport)
    requires IsColor(report.color) && '\n' !in report.target && '\n' !in report.date
    ensures '\n' !in "status" + Header(report)
  {
  }

  /** An accepted header is exactly the header its fields render to. */
  lemma HeaderOfDecode(fields: string, html: string)
    requires DecodeHeader(fields).Some?
    ensures var (lifetime, target, color, date) := DecodeHeader(fields).value;
            IsColor(color) && lifetime != Some(0)
            && Header(StatusReport(lifetime, target, color, date, html)) == fields
  {
    var (lifetimeText, afterLifetime) := Cut(fields, ' ').value;
    var (target, afterTarget) := Cut(afterLifetime, ' ').value;
    var (colorName, date) := Cut(afterTarget, ' ').value;
    LifetimeTextOfDecode(lifetimeText);
    assert ("&" + colorName)[1..] == colorName;
  }

  lemma EncodeOf(report: StatusReport, header: string, rest: string)
    requires IsColor(report.color) && |header| >= 6 && header[..6] == "status" && header[6..] == Header(report)
    requires |rest| > 0 && rest[|rest| - 1] == '\n' && report.html == rest[..|rest| - 1]
    ensures Encode(report) == header + "\n" + rest
  {
    assert header == "status" + Header(report);
    assert rest == report.html + "\n";
  }

  /**
   * Every line the reader accepts is exactly the rendering of the fields it
   * reads, and never carries a lifetime of 0: with EncodeDecode, the wire
   * line and its fields determine each other.
   */
  lemma DecodeEncode(wire: string, report: StatusReport)
    requires Decode(wire) == Some(report)
    ensures IsColor(report.color) && report.lifetime != Some(0) && Encode(report) == wire
  {
    var cut := Cut(wire, '\n').value;
    HeaderOfDecode(cut.0[6..], report.html);
    EncodeOf(report, cut.0, cut.1);
  }

  /**
   * Every field survives rendering, provided the target holds no blank or
   * line break and the date no line break; the body may hold anything.
   */
  lemma EncodeDecode(report: StatusReport)
    requires IsColor(report.color)
    requires ' ' !in report.target && '\n' !in report.target && '\n' !in report.date
    ensures Decode(Encode(report)) == Some(Normalized(report))
  {
    var header := "status" + Header(report);
    var rest := report.html + "\n";
    HeaderOneLine(report);
    CutAt(header, '\n', rest);
    assert header[..6] == "status" && header[6..] == Header(report);
    DecodeHeaderOf(report);
    assert rest[..|rest| - 1] == report.html;
  }

  // ---------------------------------------------------------------------
  // Environment
  // ---------------------------------------------------------------------

  /** `_get_machine`: the reporting host's name, from MACHINE. */
  function GetMachine(env: Env): (r: Result<string, Error>)
    ensures r.Success? <==> "MACHINE" in env && env["MACHINE"] != ""
    ensures r.Success? ==> r.value == env["MACHINE"]
    ensures r.Failure? ==> r.error == MachineNotSet
  {
    if "MACHINE" !in env || env["MACHINE"] == "" then Failure(MachineNotSet)
    else Success(env["MACHINE"])
  }

  /** `_get_xymon_server_name`: the single server named by XYMSRV. */
  function GetServerName(env: Env): (r: Result<string, Error>)
    ensures r.Success? <==> "XYMSRV" in env && env["XYMSRV"] != ""
    ensures r.Success? ==> r.value == env["XYMSRV"]
    ensures r.Failure? ==> r.error == ServerNotSet
  {
    if "XYMSRV" !in env || env["XYMSRV"] == "" then Failure(ServerNotSet)
    else Success(env["XYMSRV"])
  }

  /** `_get_xymon_server_port`: XYMONDPORT as an integer, 1984 when it is absent. */
  function GetServerPort(env: Env): (r: Result<int, Error>)
    ensures "XYMONDPORT" !in env ==> r == Success(DEFAULT_PORT)
    ensures "XYMONDPORT" in env && ParseInt(env["XYMONDPORT"]).Some? ==>
              r == Success(ParseInt(env["XYMONDPORT"]).value)
    ensures "XYMONDPORT" in env && ParseInt(env["XYMONDPORT"]).None? ==>
              r == Failure(InvalidPort(env["XYMONDPORT"]))
  {
    if "XYMONDPORT" !in env then Success(DEFAULT_PORT)
    else match ParseInt(env["XYMONDPORT"])
      case None => Failure(InvalidPort(env["XYMONDPORT"]))
      case Some(port) => Success(port)
  }

  /** Any port written in decimal into XYMONDPORT is read back as that port. */
  lemma PortRoundTrip(env: Env, port: int)
    ensures GetServerPort(env["XYMONDPORT" := Show(port)]) == Success(port)
  {
    ParseShow(port);
  }

  // ---------------------------------------------------------------------
  // The message builder
  // ---------------------------------------------------------------------

  class XymonMessage {
    var message: string
    var footer: Option<string>
    var color: string
    var lifetime: Option<int>

    /** The colour is always one of the legal colours. */
    ghost predicate Valid()
      reads this
    {
      IsColor(color)
    }

    /** A fresh message: empty body, no footer, green, no lifetime. */
    constructor ()
      ensures Valid()
      ensures message == "" && footer == None
      ensures color == STATUS_OK && lifetime == None
    {
      message := "";
      footer := None;
      color := STATUS_OK;
      lifetime := None;
    }

    /** The colour setter. */
    method SetColor(value: string) returns (outcome: Outcome<Error>)
      requires Valid()
      modifies this`color
      ensures Valid()
      ensures outcome == if IsColor(value) then Pass else Fail(IllegalColor(value))
      ensures color == Ratchet(old(color), value)
      ensures message == old(message) && footer == old(footer) && lifetime == old(lifetime)
    {
      if value !in ALL_COLORS {
        return Fail(IllegalColor(value));
      }
      var currentColorIndex := Rank(color);
      var newColorIndex := Rank(value);
      if newColorIndex > currentColorIndex {
        color := value;
      }
      outcome := Pass;
    }

    /** The lifetime setter: `int(value)`, or ValueError with the lifetime kept. */
    method SetLifetime(value: string) returns (outcome: Outcome<Error>)
      requires Valid()
      modifies this`lifetime
      ensures Valid()
      ensures ParseInt(value).Some? ==> outcome == Pass && lifetime == ParseInt(value)
      ensures ParseInt(value).None? ==> outcome == Fail(NotANumber(value)) && lifetime == old(lifetime)
    {
      var parsed := ParseInt(value);
      if parsed.None? {
        return Fail(NotANumber(value));
      }
      lifetime := parsed;
      outcome := Pass;
    }

    /** Appends a title block; what was there before is kept as a prefix. */
    method Title(text: string)
      requires Valid()
      modifies this`message
      ensures Valid()
      ensures message == old(message) + Fragment(TitleBlock(text))
      ensures color == old(color) && footer == old(footer) && lifetime == old(lifetime)
    {
      message := message + "<br><h1>" + text + "</h1><hr><br>";
    }

    /** Appends a section block; what was there before is kept as a prefix. */
    method Section(title: string, body: string)
      requires Valid()
      modifies this`message
      ensures Valid()
      ensures message == old(message) + Fragment(SectionBlock(title, body))
      ensures color == old(color) && footer == old(footer) && lifetime == old(lifetime)
    {
      message := message + "<h2>" + title + "</h2><p>" + body + "</p><br>";
    }

    /** Replaces any previous footer. */
    method Footer(checkFilename: string, checkVersion: string)
      requires Valid()
      modifies this`footer
      ensures Valid()
      ensures footer == Some(FooterFragment(checkFilename, checkVersion))
      ensures message == old(message) && color == old(color) && lifetime == old(lifetime)
    {
      footer := Some(FooterFragment(checkFilename, checkVersion));
    }

    /** The body followed by the footer, when one is set (an empty footer counts as unset). */
    function Html(): (html: string)
      reads this
      ensures html == message + (if footer.Some? then footer.value else "")
    {
      if footer.None? || footer.value == "" then message else message + footer.value
    }

    /**
     * `_render`: fails when MACHINE is unset or empty, or (never, for a valid
     * message) when the colour is not legal; otherwise the `status` line,
     * which a reader decodes back into the message's fields.
     */
    function Render(test: string, env: Env, date: string): (r: Result<string, Error>)
      reads this
      ensures GetMachine(env).Failure? ==> r == Failure(MachineNotSet)
      ensures GetMachine(env).Success? && !IsColor(color) ==> r == Failure(ColorCorrupted(color))
      ensures Valid() ==> (r.Success? <==> GetMachine(env).Success?)
      ensures r.Success? && ' ' !in env["MACHINE"] + test && '\n' !in env["MACHINE"] + test + date ==>
                Decode(r.value) == Some(Normalized(
                  StatusReport(lifetime, env["MACHINE"] + "." + test, color, date, Html())))
    {
      match GetMachine(env)
      case Failure(e) => Failure(e)
      case Success(machine) =>
        if !IsColor(color) then Failure(ColorCorrupted(color))
        else
          var report := StatusReport(lifetime, machine + "." + test, color, date, Html());
          if ' ' !in machine + test && '\n' !in machine + test + date then
            assert ' ' !in report.target && '\n' !in report.target && '\n' !in date by {
              assert forall ch :: ch in report.target ==> ch in machine + test || ch == '.';
              assert forall ch :: ch in date ==> ch in machine + test + date;
            }
            EncodeDecode(report);
            Success(Encode(report))
          else
            Success(Encode(report))
    }
  }

  // ---------------------------------------------------------------------
  // The client
  // ---------------------------------------------------------------------

  /** What `send` writes, and where. */
  datatype Delivery = Delivery(server: string, port: int, payload: string)

  /** `XymonClient`: a message plus the name of the Xymon test it reports. */
  class XymonClient {
    const test: string
    const msg: XymonMessage

    constructor (test: string)
      ensures this.test == test && fresh(msg)
      ensures msg.Valid() && msg.message == "" && msg.footer == None
      ensures msg.color == STATUS_OK && msg.lifetime == None
    {
      this.test := test;
      msg := new XymonMessage();
    }

    /**
     * `send` without its socket: the server is resolved first, then the port,
     * then the message is rendered; the first failure is the one raised.
     */
    function Send(env: Env, date: string): (r: Result<Delivery, Error>)
      reads msg
      ensures GetServerName(env).Failure? ==> r == Failure(ServerNotSet)
      ensures GetServerName(env).Success? && GetServerPort(env).Failure? ==>
                r == Failure(GetServerPort(env).error)
      ensures GetServerName(env).Success? && GetServerPort(env).Success? ==>
                (r.Success? <==> msg.Render(test, env, date).Success?)
      ensures GetServerName(env).Success? && GetServerPort(env).Success? && msg.Render(test, env, date).Failure? ==>
                r == Failure(msg.Render(test, env, date).error)
      ensures r.Success? ==>
                r.value.server == env["XYMSRV"] && r.value.port == GetServerPort(env).value
                && Success(r.value.payload) == msg.Render(test, env, date)
    {
      match GetServerName(env)
      case Failure(e) => Failure(e)
      case Success(server) =>
        match GetServerPort(env)
        case Failure(e) => Failure(e)
        case Success(port) =>
          match msg.Render(test, env, date)
          case Failure(e) => Failure(e)
          case Success(payload) => Success(Delivery(server, port, payload))
    }
  }
}
