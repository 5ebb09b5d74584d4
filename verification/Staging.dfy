/**
 NodeStageVolume's call into the IBM provider, the node side's only change to the cloud: a create under
 the configuration the volume context parses to.
 */
module Staging {
  import opened Basics
  import opened IbmConfig
  import opened IbmSdk
  import Prov = IbmProvider
  import Node = NodeServer

  datatype StageFaults = StageFaults(sessionOk: bool, calls: Prov.CreateCalls)

  /** The cloud afterwards, and the native path staged unless the call failed. */
  function StageOnIbm(d: Deployment, c: Cloud, name: string, context: Params, f: StageFaults): (Cloud, Option<string>) {
    match NewProvider(d, context, f.sessionOk)
    case Err(_) => (c, None)
    case Ok(p) =>
      var (c', created) := Prov.Create(p, c, name, Node.StageSize(context), f.calls);
      (c', match created case Err(_) => None case Ok(info) => Some(info.path))
  }
}
