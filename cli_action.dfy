/**
 * What both command-line clients share: clickclick's `Action`, which collects the errors a
 * command records before it decides to send anything, and the messages they record.
 */
module CliAction {
  import opened Wrappers
  import opened PyStr
  import opened OrderedDict

  /** Why a validation stopped: a Python exception, or one of the client's own errors. */
  datatype Failure =
    | Raised(exception: string)
    | NoAlerts
    | KeysNotFound(sample: set<string>)
    | SloNotInProduct

  /** The fixed messages the validators record. */
  datatype Notice =
    // zmon_slr/main.py
    | SliUriMissing | FromMissing | ToMissing | TitleMissing
    | KeysEmpty | TypeInvalid | WeightKeysMissing | Blank
    | MetricInvalid | SourceTypeInvalid
    | NameMissing | UnitMissing | SourceMissing
    // cli.py
    | DataSourceNameMissing | DefinitionMissing | DefinitionKeysEmpty
    | DefinitionTypeInvalid | DefinitionWeightKeysMissing
    | TargetsMissing | TargetNameMissing

  /** The text each notice prints. */
  function NoticeText(n: Notice): string {
    match n
    case SliUriMissing => "Field \"sli_uri\" is missing in SLO target definition."
    case FromMissing => "Numeric field \"from\" is missing in SLO target definition."
    case ToMissing => "Numeric field \"to\" is missing in SLO target definition."
    case TitleMissing => "Field \"title\" is missing in SLO definition."
    case KeysEmpty => "Field \"keys\" value is missing in SLI source definition."
    case TypeInvalid =>
      "Field \"type\" is missing in SLI source aggregation. Valid values are: " +
      "('average', 'weighted', 'sum', 'min', 'max', 'minimum', 'maximum')"
    case WeightKeysMissing => "Field \"weight_keys\" is missing in SLI source aggregation for type \"weighted\"."
    case Blank => ""
    case MetricInvalid => "\"source.metric is invalid."
    case SourceTypeInvalid =>
      "Field \"source.type\" should be either \"zmon\", \"lightstep\" or empty. Defaults to \"zmon\""
    case NameMissing => "Field \"name\" is missing in SLI definition."
    case UnitMissing => "Field \"unit\" is missing in SLI definition."
    case SourceMissing => "Field \"source\" is missing in SLI definition."
    case DataSourceNameMissing => "Field \"sli_name\" is missing in data-source definition."
    case DefinitionMissing => "Field \"definition\" is missing in data-source definition."
    case DefinitionKeysEmpty => "Field \"keys\" value is missing in data-source definition."
    case DefinitionTypeInvalid =>
      "Field \"type\" is missing in data-source aggregation. Valid values are: " +
      "('average', 'weighted', 'sum', 'minimum', 'maximum')"
    case DefinitionWeightKeysMissing =>
      "Field \"weight_keys\" is missing in data-source aggregation for type \"weighted\"."
    case TargetsMissing => "Field \"targets\" is missing in SLO definition."
    case TargetNameMissing => "Field \"sli_name\" is missing in SLO definition target."
  }

  /**
   * What the validators record: a fixed notice, the set of fields missing from a definition
   * ("Fields {...} are missing in SLI source definition."), or the error that ends the command.
   */
  datatype Message = Text(notice: Notice) | Missing(fields: set<string>, definition: string) | Fatal(failure: Failure)

  /** clickclick's `Action`: the errors recorded while it is open. */
  class Action {
    var errors: seq<Message>

    constructor()
      ensures errors == []
    {
      errors := [];
    }

    /** `act.error(msg)` */
    method Error(msg: Message)
      modifies this
      ensures errors == old(errors) + [msg]
    {
      errors := errors + [msg];
    }
  }

  /** The messages a validation records, and how it ends. */
  datatype Outcome = Outcome(messages: seq<Message>, result: Result<(), Failure>)

  lemma AppendAssoc<T>(a: seq<T>, b: seq<T>, c: seq<T>)
    ensures (a + b) + c == a + (b + c)
  {
  }

  /** `set(required) - set(source.keys())` */
  function MissingFields<V>(source: seq<(string, V)>, required: seq<string>): set<string> {
    set f | f in required && f !in Keys(source)
  }

  /** Nothing is missing exactly when every required field is a key. */
  lemma MissingFieldsEmpty<V>(source: seq<(string, V)>, required: seq<string>)
    ensures MissingFields(source, required) == {} <==> forall f :: f in required ==> f in Keys(source)
  {
    if f :| f in required && f !in Keys(source) {
      assert f in MissingFields(source, required);
    }
  }

  /** Every item's messages, in order. */
  function ConcatMap<T>(f: T -> seq<Message>, xs: seq<T>): seq<Message>
    decreases |xs|
  {
    if |xs| == 0 then [] else ConcatMap(f, xs[..|xs| - 1]) + f(Last(xs))
  }

  lemma ConcatMapSnoc<T>(f: T -> seq<Message>, xs: seq<T>, i: nat)
    requires i < |xs|
    ensures ConcatMap(f, xs[..i + 1]) == ConcatMap(f, xs[..i]) + f(xs[i])
  {
    assert xs[..i + 1][..i] == xs[..i];
  }

  /** No message at all exactly when no item has one. */
  lemma {:induction false} ConcatMapEmpty<T>(f: T -> seq<Message>, xs: seq<T>)
    ensures ConcatMap(f, xs) == [] <==> forall i :: 0 <= i < |xs| ==> f(xs[i]) == []
    decreases |xs|
  {
    if |xs| > 0 {
      var init := xs[..|xs| - 1];
      ConcatMapEmpty(f, init);
      assert forall i :: 0 <= i < |init| ==> init[i] == xs[i];
    }
  }
}
