/** The intermediate representation the operator compiles: virtual hosts, their routes and destinations. */
module IR {
  import opened Options
  import opened Urls
  import opened TrafficPolicy

  datatype PathType = Exact | Prefix | Regex | OtherPath(text: string)

  datatype ValueType = ExactValue | RegexValue | OtherValue(text: string)

  /** A header or a query parameter matcher. */
  datatype Matcher = Matcher(name: string, value: string, valueType: ValueType)

  datatype Criteria = Criteria(
    path: Option<string>,
    pathType: Option<PathType>,
    headers: seq<Matcher>,
    query: seq<Matcher>,
    verb: Option<string>)

  datatype Service = Service(
    uid: string,
    namespace: string,
    name: string,
    port: int,
    certs: seq<ObjectRef>,
    scheme: string,
    appProtocol: Option<string>)

  /** The rules of a policy's request phase. */
  type Policy = seq<Rule>

  datatype Destination = Destination(weight: Option<int>, upstream: Option<Service>, policies: seq<Policy>)

  datatype Route = Route(criteria: Option<Criteria>, policies: seq<Policy>, destinations: seq<Destination>)

  datatype Listener = Listener(hostname: string, port: int, protocol: Protocol)

  datatype MappingStrategy = EndpointsCollapsed | EndpointsVerbose | Edges

  datatype VirtualHost = VirtualHost(
    namePrefix: Option<string>,
    namespace: string,
    listener: Listener,
    policy: Option<Policy>,
    routes: seq<Route>,
    defaultDestination: Option<Destination>,
    strategy: MappingStrategy)

  function Flatten(policies: seq<Policy>): Policy {
    if policies == [] then [] else policies[0] + Flatten(policies[1..])
  }

  function DestinationRules(destinations: seq<Destination>): Policy {
    if destinations == [] then []
    else Flatten(destinations[0].policies) + DestinationRules(destinations[1..])
  }

  /** Every request-phase rule a user attached to the route or to one of its destinations. */
  function UserRules(route: Route): Policy {
    Flatten(route.policies) + DestinationRules(route.destinations)
  }

  /** A destination without a weight counts as one share. */
  function Weight(d: Destination): int {
    if d.weight.Some? then d.weight.value else 1
  }

  function TotalWeight(destinations: seq<Destination>): int {
    if destinations == [] then 0 else Weight(destinations[0]) + TotalWeight(destinations[1..])
  }
}
