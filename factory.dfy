/**
 * The provider factory (testing/api/factory/factory.go): one factory per cloud provider,
 * created on first request and cached for the life of the process, and the bounded retry
 * loop that waits for a new identity's permissions to reach a service.
 */
module ProviderFactory {
  import opened Wrappers
  import opened Text
  import opened Environment

  /**
   * A provider factory. The AWS and Azure factories keep the cloud parameters they were
   * built with; the GCP factory is built without them.
   */
  datatype Factory = AwsFactory(cloudParams: CloudParams) | AzureFactory(cloudParams: CloudParams) | GcpFactory

  /** `GetProvider`: the provider a factory serves. */
  function ProviderOf(f: Factory): (provider: string)
    ensures KnownProvider(provider)
  {
    match f
    case AwsFactory(_) => "aws"
    case AzureFactory(_) => "azure"
    case GcpFactory => "gcp"
  }

  /** The `switch` of `NewFactory`: a new factory for a supported provider, an error otherwise. */
  function Construct(provider: string, cloudParams: CloudParams): (r: Result<Factory>)
    ensures r.Ok? <==> KnownProvider(provider)
    ensures r.Ok? ==> ProviderOf(r.value) == provider
    ensures r.Ok? && provider != "gcp" ==> r.value.cloudParams == cloudParams
    ensures r.Err? ==> r.message == "unsupported cloud provider: " + provider
  {
    if provider == "aws" then Ok(AwsFactory(cloudParams))
    else if provider == "azure" then Ok(AzureFactory(cloudParams))
    else if provider == "gcp" then Ok(GcpFactory)
    else Err("unsupported cloud provider: " + provider)
  }

  /** The package-level `factoryCache`. */
  class FactoryCache {
    var factories: map<string, Factory>

    /** Only supported providers are cached, each with a factory serving that provider. */
    ghost predicate Valid()
      reads this
    {
      forall p :: p in factories ==> KnownProvider(p) && ProviderOf(factories[p]) == p
    }

    /** The cache starts empty. */
    constructor()
      ensures Valid() && factories == map[]
    {
      factories := map[];
    }

    /**
     * `NewFactory`: a provider seen before gets its cached factory back and the new
     * cloud parameters are ignored; an unsupported provider gets an error and the cache is
     * left as it was; otherwise a new factory is built and cached under its provider.
     */
    method NewFactory(provider: string, cloudParams: CloudParams) returns (r: Result<Factory>)
      requires Valid()
      modifies this
      ensures Valid()
      ensures provider in old(factories) ==> r == Ok(old(factories)[provider]) && factories == old(factories)
      ensures provider !in old(factories) && !KnownProvider(provider) ==>
        r == Err("unsupported cloud provider: " + provider) && factories == old(factories)
      ensures provider !in old(factories) && KnownProvider(provider) ==>
        r == Construct(provider, cloudParams) && factories == old(factories)[provider := r.value]
      ensures r.Ok? ==> ProviderOf(r.value) == provider && provider in factories && factories[provider] == r.value
    {
      if provider in factories {
        return Ok(factories[provider]);
      }
      var factory := Construct(provider, cloudParams);
      if factory.Err? {
        return factory;
      }
      factories := factories[provider := factory.value];
      return factory;
    }
  }

  /** `maxAttempts`: twelve checks five seconds apart. */
  const MaxAttempts: nat := 12

  /** The error after the last failed check, wrapping that check's error. */
  function TimedOutMessage(attempts: nat, last: string): (msg: string)
    ensures HasSuffix(msg, ": " + last)
  {
    var head := "user permissions validation timed out after " + NatToString(attempts) + " attempts";
    assert (head + ": " + last)[|head|..] == ": " + last;
    head + ": " + last
  }

  /**
   * `waitForUserProvisioning`. `checkUserProvisioned(k)` is what the service's
   * `CheckUserProvisioned` answers on the k-th call (None for nil); the sleeps between
   * calls are not modelled. `calls` is how many checks were made. The loop returns from
   * its body on every path, so the timeout after it in the source is never reached.
   */
  method WaitForUserProvisioning(checkUserProvisioned: nat -> Option<string>) returns (err: Option<string>, calls: nat)
    ensures 1 <= calls <= MaxAttempts
    ensures forall k :: 1 <= k < calls ==> checkUserProvisioned(k).Some?
    ensures err.None? <==> checkUserProvisioned(calls).None?
    ensures err.Some? ==>
      calls == MaxAttempts && err == Some(TimedOutMessage(MaxAttempts, checkUserProvisioned(MaxAttempts).value))
    ensures err.None? <==> exists k :: 1 <= k <= MaxAttempts && checkUserProvisioned(k).None?
  {
    var attempt := 1;
    while true
      invariant 1 <= attempt <= MaxAttempts
      invariant forall k :: 1 <= k < attempt ==> checkUserProvisioned(k).Some?
      decreases MaxAttempts - attempt
    {
      var e := checkUserProvisioned(attempt);
      if e.None? {
        return None, attempt;
      }
      if attempt < MaxAttempts {
        attempt := attempt + 1;
        continue;
      }
      return Some(TimedOutMessage(attempt, e.value)), attempt;
    }
  }
}
