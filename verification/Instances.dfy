/** Instances as the autoscaler sees them (cloudprovider.Instance). */
module Instances {
  import opened Common

  const AZURE_PREFIX := "azure://"

  datatype InstanceState = Running | Creating | Deleting

  datatype ErrorInfo = ProvisioningFailed | ExtensionFailed

  datatype Status = Status(state: InstanceState, error: Option<ErrorInfo>)

  datatype Instance = Instance(id: string, status: Option<Status>)
}
