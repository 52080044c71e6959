/**
 * `MIGraphX_AppendProviderOptions`: checks that a provider-options record is
 * addressed to MIGraphX and hands its key/value pairs, flattened into two parallel
 * sequences, to the session's "append execution provider" operation.
 */
module ProviderOptionsInjector {
  import opened Wrappers

  /** The only provider name the injector accepts. */
  const ProviderName: string := "MIGraphX"

  /** The text the thrown error starts with; the offending name follows it. */
  const ErrorPrefix: string := "MIGraphX_AppendProviderOptions called with provider_options.name = "

  type OptionPair = (string, string)

  /** `Config::ProviderOptions`: a provider name and its ordered (key, value) pairs. */
  datatype ProviderOptions = ProviderOptions(name: string, options: seq<OptionPair>)

  /** `Generators::Config`: the global configuration; the injector never reads it. */
  datatype Config = Config(providerOptions: seq<ProviderOptions>)

  /** `std::runtime_error` and its message. */
  datatype RuntimeError = RuntimeError(message: string)

  /** The arguments of one `AppendExecutionProvider(name, keys, values, count)` call. */
  datatype AppendCall = AppendCall(providerName: string, keys: seq<string>, values: seq<string>, count: nat)

  /** The keys of the pairs, in order. */
  function Keys(options: seq<OptionPair>): (ks: seq<string>)
    ensures |ks| == |options|
    ensures forall i :: 0 <= i < |options| ==> ks[i] == options[i].0
  {
    if options == [] then [] else [options[0].0] + Keys(options[1..])
  }

  /** The values of the pairs, in order. */
  function Values(options: seq<OptionPair>): (vs: seq<string>)
    ensures |vs| == |options|
    ensures forall i :: 0 <= i < |options| ==> vs[i] == options[i].1
  {
    if options == [] then [] else [options[0].1] + Values(options[1..])
  }

  /** Pairs up two parallel sequences again: the inverse of splitting into Keys and Values. */
  function Zip(keys: seq<string>, values: seq<string>): (ps: seq<OptionPair>)
    requires |keys| == |values|
    ensures |ps| == |keys|
    ensures forall i :: 0 <= i < |ps| ==> ps[i] == (keys[i], values[i])
  {
    if keys == [] then [] else [(keys[0], values[0])] + Zip(keys[1..], values[1..])
  }

  /** Flattening loses nothing: the two sequences put back together are the original pairs. */
  lemma ZipKeysValues(options: seq<OptionPair>)
    ensures Zip(Keys(options), Values(options)) == options
  {
  }

  /**
   * What one application of a provider-options record amounts to: the error the
   * injector throws, or the append call it makes.
   */
  function AppendRequest(po: ProviderOptions): (r: Result<AppendCall, RuntimeError>)
    ensures r.Failure? <==> po.name != ProviderName
    ensures r.Failure? ==>
      |r.error.message| == |ErrorPrefix| + |po.name| &&
      r.error.message[..|ErrorPrefix|] == ErrorPrefix &&
      r.error.message[|ErrorPrefix|..] == po.name
    ensures r.Success? ==>
      r.value.providerName == ProviderName &&
      r.value.count == |po.options| &&
      |r.value.keys| == r.value.count && |r.value.values| == r.value.count &&
      (forall i :: 0 <= i < |po.options| ==>
         r.value.keys[i] == po.options[i].0 && r.value.values[i] == po.options[i].1)
  {
    if po.name != ProviderName then
      Failure(RuntimeError(ErrorPrefix + po.name))
    else
      Success(AppendCall(po.name, Keys(po.options), Values(po.options), |po.options|))
  }

  /** A successful append call determines the record it came from. */
  lemma AppendRequestInjective(p1: ProviderOptions, p2: ProviderOptions)
    requires AppendRequest(p1).Success? && AppendRequest(p2).Success?
    requires AppendRequest(p1) == AppendRequest(p2)
    ensures p1 == p2
  {
  }

  /** Two pairs addressed to MIGraphX reach the runtime as keys ["a", "b"] and values ["1", "2"]. */
  lemma TwoPairsExample()
    ensures AppendRequest(ProviderOptions("MIGraphX", [("a", "1"), ("b", "2")]))
         == Success(AppendCall("MIGraphX", ["a", "b"], ["1", "2"], 2))
  {
    var options: seq<OptionPair> := [("a", "1"), ("b", "2")];
    assert Keys(options) == ["a", "b"];
    assert Values(options) == ["1", "2"];
  }

  /** A record addressed to the CPU is refused with an error naming "CPU". */
  lemma WrongProviderExample()
    ensures AppendRequest(ProviderOptions("CPU", [("a", "1")]))
         == Failure(RuntimeError(ErrorPrefix + "CPU"))
  {
  }

  /**
   * `OrtSessionOptions`, reduced to what the injector does to it: the sequence of
   * execution-provider append calls it has received, oldest first.
   */
  class SessionOptions {
    var appended: seq<AppendCall>

    constructor ()
      ensures appended == []
    {
      appended := [];
    }

    /** `AppendExecutionProvider`: the key and value arrays each hold `count` strings. */
    method AppendExecutionProvider(name: string, keys: seq<string>, values: seq<string>, count: nat)
      requires |keys| == count && |values| == count
      modifies this
      ensures appended == old(appended) + [AppendCall(name, keys, values, count)]
    {
      appended := appended + [AppendCall(name, keys, values, count)];
    }
  }

  /**
   * Fails, appending nothing, exactly when the record is not addressed to MIGraphX;
   * otherwise appends one call carrying every pair, in order. `config` plays no part.
   */
  method AppendProviderOptions(session: SessionOptions, config: Config, po: ProviderOptions)
    returns (r: Outcome<RuntimeError>)
    modifies session
    ensures r.Fail? <==> po.name != ProviderName
    ensures r.Fail? ==> AppendRequest(po) == Failure(r.error) && session.appended == old(session.appended)
    ensures r.Pass? ==> session.appended == old(session.appended) + [AppendRequest(po).value]
  {
    if po.name != ProviderName {
      return Fail(RuntimeError(ErrorPrefix + po.name));
    }

    var keys: seq<string> := [];
    var values: seq<string> := [];
    for i := 0 to |po.options|
      invariant |keys| == i && |values| == i
      invariant forall j :: 0 <= j < i ==> keys[j] == po.options[j].0 && values[j] == po.options[j].1
    {
      keys := keys + [po.options[i].0];
      values := values + [po.options[i].1];
    }
    assert keys == Keys(po.options);
    assert values == Values(po.options);

    session.AppendExecutionProvider(po.name, keys, values, |keys|);
    r := Pass;
  }
}
