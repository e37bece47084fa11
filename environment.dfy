/**
 * The parameter records the runners, the policy checker and the provider factory pass
 * around (testing/environment/types.go).
 */
module Environment {
  /** Where the tests run; fields a provider does not use stay "". */
  datatype CloudParams = CloudParams(
    provider: string,
    region: string,
    azureResourceGroup: string,
    azureSubscriptionId: string,
    azureStorageAccount: string,
    gcpProjectId: string)

  /** The fields of a discovered resource that the modelled code reads. */
  datatype TestParams = TestParams(
    resourceName: string,
    uid: string,
    serviceType: string,
    catalogTypes: seq<string>,
    cloudParams: CloudParams)

  /** `CloudParams{Provider: p, Region: r}` with every other field empty. */
  function BareParams(provider: string, region: string): (r: CloudParams)
    ensures r.provider == provider && r.region == region
    ensures r.azureResourceGroup == r.azureSubscriptionId == r.azureStorageAccount == r.gcpProjectId == ""
  {
    CloudParams(provider, region, "", "", "", "")
  }

  /** The providers the runners accept: "aws", "azure" and "gcp". */
  predicate KnownProvider(provider: string)
  {
    provider == "aws" || provider == "azure" || provider == "gcp"
  }
}
