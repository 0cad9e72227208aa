/** The `/LogLevel` endpoint: a query naming a logger category and a level is validated and,
    when valid, written into a reloadable configuration provider. */
module LogLevelConfiguration {
  import Wrappers
  import opened Ascii

  datatype LogLevel = Trace | Debug | Information | Warning | Error | Critical | None

  /** `LogLevel.ToString()`: the enum member's name. */
  function Name(level: LogLevel): string {
    match level
    case Trace => "Trace"
    case Debug => "Debug"
    case Information => "Information"
    case Warning => "Warning"
    case Error => "Error"
    case Critical => "Critical"
    case None => "None"
  }

  /** The endpoint's `switch`: the (already lower-cased) level names it accepts. */
  function ParseLevel(s: string): Wrappers.Option<LogLevel> {
    match s
    case "trace" => Wrappers.Some(Trace)
    case "debug" => Wrappers.Some(Debug)
    case "information" => Wrappers.Some(Information)
    case "warning" => Wrappers.Some(Warning)
    case "error" => Wrappers.Some(Error)
    case "critical" => Wrappers.Some(Critical)
    case "none" => Wrappers.Some(None)
    case _ => Wrappers.None
  }

  /** The switch accepts exactly the lower-cased names of the seven levels. */
  lemma ParseLevelInvertsName(s: string, level: LogLevel)
    ensures ParseLevel(s) == Wrappers.Some(level) <==> s == Lower(Name(level))
  {
    match level
    case Trace => assert Lower("Trace") == "trace";
    case Debug => assert Lower("Debug") == "debug";
    case Information => assert Lower("Information") == "information";
    case Warning => assert Lower("Warning") == "warning";
    case Error => assert Lower("Error") == "error";
    case Critical => assert Lower("Critical") == "critical";
    case None => assert Lower("None") == "none";
  }

  const KeyPrefix: string := "Logging:LogLevel:"

  /** The configuration provider: its key/value data and how many reloads it has signalled. */
  datatype Provider = Provider(data: map<string, Wrappers.Option<string>>, reloads: nat)

  /** `p'` is `p` with `key` bound to `value`, every other entry kept, and one more reload. */
  ghost predicate Wrote(p: Provider, p': Provider, key: string, value: Wrappers.Option<string>) {
    && key in p'.data && p'.data[key] == value
    && (forall k :: k != key ==> (k in p'.data <==> k in p.data))
    && (forall k :: k != key && k in p.data ==> p'.data[k] == p.data[k])
    && p'.reloads == p.reloads + 1
  }

  /** `LogLevelConfigurationProvider.Set`: store the value, then signal a reload. */
  function ProviderSet(p: Provider, key: string, value: Wrappers.Option<string>): (r: Provider)
    ensures Wrote(p, r, key, value)
  {
    Provider(p.data[key := value], p.reloads + 1)
  }

  /** `LogLevelConfigurationSource.Set`: write the level's name under the category's key. */
  function SetLevel(p: Provider, key: string, level: LogLevel): (r: Provider)
    ensures Wrote(p, r, KeyPrefix + key, Wrappers.Some(Name(level)))
  {
    ProviderSet(p, KeyPrefix + key, Wrappers.Some(Name(level)))
  }

  function SetTrace(p: Provider, key: string): Provider { SetLevel(p, key, Trace) }
  function SetDebug(p: Provider, key: string): Provider { SetLevel(p, key, Debug) }
  function SetInformation(p: Provider, key: string): Provider { SetLevel(p, key, Information) }
  function SetWarning(p: Provider, key: string): Provider { SetLevel(p, key, Warning) }
  function SetError(p: Provider, key: string): Provider { SetLevel(p, key, Error) }
  function SetCritical(p: Provider, key: string): Provider { SetLevel(p, key, Critical) }
  function SetNone(p: Provider, key: string): Provider { SetLevel(p, key, None) }

  /** Each named setter writes its own level's name under `Logging:LogLevel:<key>`. */
  lemma NamedSettersWriteOwnLevel(p: Provider, key: string)
    ensures SetTrace(p, key).data[KeyPrefix + key] == Wrappers.Some("Trace")
    ensures SetDebug(p, key).data[KeyPrefix + key] == Wrappers.Some("Debug")
    ensures SetInformation(p, key).data[KeyPrefix + key] == Wrappers.Some("Information")
    ensures SetWarning(p, key).data[KeyPrefix + key] == Wrappers.Some("Warning")
    ensures SetError(p, key).data[KeyPrefix + key] == Wrappers.Some("Error")
    ensures SetCritical(p, key).data[KeyPrefix + key] == Wrappers.Some("Critical")
    ensures SetNone(p, key).data[KeyPrefix + key] == Wrappers.Some("None")
  {
  }

  /** `StringValues.ToString()`: the values given for a query parameter, joined with commas
      after empty entries are dropped; a parameter given no value reads as the empty string. */
  function QueryValue(values: seq<string>): (r: string)
    ensures r == "" <==> forall i :: 0 <= i < |values| ==> values[i] == ""
    ensures |values| == 1 ==> r == values[0]
    decreases |values|
  {
    if |values| == 0 then ""
    else
      var prefix := QueryValue(values[..|values| - 1]);
      var last := values[|values| - 1];
      if last == "" then prefix
      else if prefix == "" then last
      else prefix + "," + last
  }

  /** The non-empty entries of `values`, in order. */
  function NonEmpty(values: seq<string>): seq<string>
    decreases |values|
  {
    if |values| == 0 then []
    else NonEmpty(values[..|values| - 1]) + (if values[|values| - 1] == "" then [] else [values[|values| - 1]])
  }

  /** The plain comma join of `values`. */
  function Join(values: seq<string>): string
    decreases |values|
  {
    if |values| == 0 then ""
    else if |values| == 1 then values[0]
    else Join(values[..|values| - 1]) + "," + values[|values| - 1]
  }

  lemma JoinOfNonEmptyEntries(values: seq<string>)
    requires forall i :: 0 <= i < |values| ==> values[i] != ""
    ensures Join(values) == "" <==> values == []
  {
  }

  lemma {:induction false} NonEmptyHasNoEmptyEntry(values: seq<string>)
    ensures forall i :: 0 <= i < |NonEmpty(values)| ==> NonEmpty(values)[i] != ""
    decreases |values|
  {
    if |values| > 0 {
      NonEmptyHasNoEmptyEntry(values[..|values| - 1]);
    }
  }

  /** Reading a parameter is the same as joining its non-empty values with commas. */
  lemma {:induction false} QueryValueJoinsNonEmpty(values: seq<string>)
    ensures QueryValue(values) == Join(NonEmpty(values))
    decreases |values|
  {
    if |values| > 0 {
      var init, last := values[..|values| - 1], values[|values| - 1];
      QueryValueJoinsNonEmpty(init);
      NonEmptyHasNoEmptyEntry(init);
      JoinOfNonEmptyEntries(NonEmpty(init));
      if last == "" {
        assert NonEmpty(values) == NonEmpty(init) + [] == NonEmpty(init);
        assert QueryValue(values) == QueryValue(init);
      } else {
        var ne := NonEmpty(init) + [last];
        assert NonEmpty(values) == ne;
        if NonEmpty(init) != [] {
          assert ne[..|ne| - 1] == NonEmpty(init);
        }
      }
    }
  }

  /** A parameter whose values are all empty but one reads as that one value. */
  lemma {:induction false} SingleValueAmongEmpties(values: seq<string>, k: nat)
    requires k < |values|
    requires forall i :: 0 <= i < |values| && i != k ==> values[i] == ""
    ensures QueryValue(values) == values[k]
    decreases |values|
  {
    var init := values[..|values| - 1];
    if k < |values| - 1 {
      SingleValueAmongEmpties(init, k);
    } else {
      assert forall i :: 0 <= i < |init| ==> init[i] == values[i];
    }
  }

  /** The values the query string supplies for `key` and for `level`. */
  datatype Request = Request(key: seq<string>, level: seq<string>)

  datatype Response = Response(status: int, body: string)

  datatype Handled = Handled(response: Response, provider: Provider)

  /** The request handler mapped at `/LogLevel`. */
  function HandleLogLevel(p: Provider, req: Request): (r: Handled)
    ensures var key, level := Lower(QueryValue(req.key)), Lower(QueryValue(req.level));
      && (r.response.status == 200 <==> key != "" && ParseLevel(level).Some?)
      && (r.response.status == 200 ==>
            r.response.body == "OK"
            && exists l :: Lower(Name(l)) == level && Wrote(p, r.provider, KeyPrefix + key, Wrappers.Some(Name(l))))
      && (r.response.status != 200 ==> r.response == Response(400, "Bad Request") && r.provider == p)
  {
    var key := Lower(QueryValue(req.key));
    var level := Lower(QueryValue(req.level));
    if key == "" || level == "" then
      Handled(Response(400, "Bad Request"), p)
    else
      var parsed := ParseLevel(level);
      if parsed.None? then Handled(Response(400, "Bad Request"), p)
      else
        ParseLevelInvertsName(level, parsed.value);
        Handled(Response(200, "OK"), SetLevel(p, key, parsed.value))
  }

  /** A request without a key or without a level is refused and writes nothing. */
  lemma MissingParameterRefused(p: Provider, req: Request)
    requires QueryValue(req.key) == "" || QueryValue(req.level) == ""
    ensures HandleLogLevel(p, req) == Handled(Response(400, "Bad Request"), p)
  {
  }

  /** A level is accepted in any mix of upper and lower case and written in its canonical
      spelling under the lower-cased category key. */
  lemma LevelMatchedCaseInsensitively(p: Provider, key: string, level: string, l: LogLevel)
    requires key != "" && Lower(level) == Lower(Name(l))
    ensures HandleLogLevel(p, Request([key], [level])) == Handled(Response(200, "OK"), SetLevel(p, Lower(key), l))
  {
    ParseLevelInvertsName(Lower(level), l);
  }

  /** A key given twice, both times empty, reads as empty and is refused. */
  lemma RepeatedEmptyKeyRefused(p: Provider)
    ensures HandleLogLevel(p, Request(["", ""], ["warning"])) == Handled(Response(400, "Bad Request"), p)
  {
  }

  /** An empty level entry next to a real one is skipped, so the real level is written. */
  lemma EmptyLevelEntrySkipped(p: Provider)
    ensures HandleLogLevel(p, Request(["app"], ["", "Warning"])) == Handled(Response(200, "OK"), SetLevel(p, "app", Warning))
  {
    SingleValueAmongEmpties(["", "Warning"], 1);
    assert Lower("Warning") == "warning";
    assert Lower("app") == "app";
  }
}
