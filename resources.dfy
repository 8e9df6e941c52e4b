/**
 * Snapshots of the cluster objects a rule targets, reduced to the fields the
 * matchers and the label applier read.
 */
module Resources {
  import opened Wrappers

  /** The int32 range of replica counts. */
  type Int32 = x: int | -0x8000_0000 <= x < 0x8000_0000

  datatype ObjectMeta = ObjectMeta(
    namespace: string,
    name: string,
    labels: map<string, string>,
    annotations: map<string, string>)

  datatype ObjectKey = ObjectKey(namespace: string, name: string)

  datatype Container = Container(image: string, imagePullPolicy: string)

  datatype PodSpec = PodSpec(
    hostNetwork: bool,
    serviceAccountName: string,
    nodeSelector: map<string, string>,
    restartPolicy: string,
    containers: seq<Container>)

  datatype Pod = Pod(meta: ObjectMeta, spec: PodSpec)

  datatype Taint = Taint(key: string, value: string, effect: string)

  datatype NodeSystemInfo = NodeSystemInfo(kernelVersion: string, containerRuntimeVersion: string)

  datatype Node = Node(meta: ObjectMeta, taints: seq<Taint>, nodeInfo: NodeSystemInfo)

  datatype DeploymentSpec = DeploymentSpec(
    replicas: Option<Int32>,
    strategyType: string,
    template: PodSpec)

  datatype Deployment = Deployment(meta: ObjectMeta, spec: DeploymentSpec)

  /** One listed object of whichever kind the rule targets. */
  datatype Candidate = PodItem(pod: Pod) | NodeItem(node: Node) | DeploymentItem(deployment: Deployment)
  {
    function Kind(): string
    {
      match this
      case PodItem(_) => "Pod"
      case NodeItem(_) => "Node"
      case DeploymentItem(_) => "Deployment"
    }

    function Meta(): ObjectMeta
    {
      match this
      case PodItem(p) => p.meta
      case NodeItem(n) => n.meta
      case DeploymentItem(d) => d.meta
    }

    function Key(): ObjectKey
    {
      ObjectKey(Meta().namespace, Meta().name)
    }

    /** obj.SetLabels(m): the same object with its label map replaced. */
    function WithLabels(m: map<string, string>): (c: Candidate)
      ensures c.Kind() == Kind() && c.Key() == Key()
      ensures c.Meta() == Meta().(labels := m)
    {
      match this
      case PodItem(p) => PodItem(p.(meta := p.meta.(labels := m)))
      case NodeItem(n) => NodeItem(n.(meta := n.meta.(labels := m)))
      case DeploymentItem(d) => DeploymentItem(d.(meta := d.meta.(labels := m)))
    }
  }
}
