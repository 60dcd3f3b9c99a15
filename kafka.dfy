/**
 * The Kafka test container: a broker that either joins a ZooKeeper the caller
 * supplies, or starts its own ZooKeeper container before it is created and
 * shares a network with it.
 *
 * Calls into the engine are parameters: the fresh UUID, the port the port
 * client hands out, the network the engine starts and the id of the started
 * ZooKeeper container. Each awaited call is an `Answer`, so that its failure
 * can be followed.
 */
module Kafka {
  import opened Options
  import opened Text
  import opened Containers

  const KafkaImage := "confluentinc/cp-kafka"
  const ZooKeeperImage := "confluentinc/cp-zookeeper"
  const LatestTag := "latest"

  /** The port clients outside the container network use; the engine binds it to a host port. */
  const KafkaPort: nat := 9093
  /** The port brokers and co-located containers use inside the container network. */
  const KafkaBrokerPort: nat := 9092

  const ExternalListener := "EXTERNAL_LISTENER"
  const BrokerListener := "BROKER"

  const ListenersKey := "KAFKA_LISTENERS"
  const AdvertisedListenersKey := "KAFKA_ADVERTISED_LISTENERS"
  const ZooKeeperConnectKey := "KAFKA_ZOOKEEPER_CONNECT"
  const ZooKeeperClientPortKey := "ZOOKEEPER_CLIENT_PORT"

  /** The five entries every Kafka container starts with. */
  const FixedEnv: map<string, string> := map[
    "KAFKA_LISTENER_SECURITY_PROTOCOL_MAP" := "BROKER:PLAINTEXT,EXTERNAL_LISTENER:PLAINTEXT,PLAINTEXT:PLAINTEXT",
    "KAFKA_INTER_BROKER_LISTENER_NAME" := "BROKER",
    "KAFKA_BROKER_ID" := "1",
    "KAFKA_OFFSETS_TOPIC_REPLICATION_FACTOR" := "1",
    "KAFKA_CONFLUENT_SUPPORT_METRICS_ENABLE" := "false"]

  /** Where the broker's ZooKeeper comes from. */
  datatype DependencyMode = SelfProvisioned | ExternallySupplied(host: string, port: nat)

  /** How the pre-creation hook ends: normally, or with the error of the step that failed. */
  datatype Outcome =
    | Done
    | PortNotBound(port: nat)
    | PortAllocationFailed(reason: string)
    | NetworkStartFailed(reason: string)
    | ZooKeeperStartFailed(reason: string)

  /**
   * `EXTERNAL_LISTENER://externalHost:externalPort,BROKER://brokerHost:9092`,
   * the shape of both the bound and the advertised listener lists.
   */
  function ListenerPair(externalHost: string, externalPort: nat, brokerHost: string): string {
    "EXTERNAL_LISTENER://" + externalHost + ":" + Decimal(externalPort)
    + ",BROKER://" + brokerHost + ":" + Decimal(KafkaBrokerPort)
  }

  /**
   * A listener pair reads back as its two listeners, so the broker listener
   * names exactly `brokerHost` on the broker port.
   */
  lemma ListenerPairRoundTrip(externalHost: string, externalPort: nat, brokerHost: string)
    requires ',' !in externalHost && ',' !in brokerHost
    ensures ParseListeners(ListenerPair(externalHost, externalPort, brokerHost))
         == Some([Listener(ExternalListener, externalHost, externalPort),
                  Listener(BrokerListener, brokerHost, KafkaBrokerPort)])
  {
    var ls := [Listener(ExternalListener, externalHost, externalPort),
               Listener(BrokerListener, brokerHost, KafkaBrokerPort)];
    assert WellFormed(ls[0]) && WellFormed(ls[1]);
    ListenerPairIsFormatted(externalHost, externalPort, brokerHost);
    ListenersRoundTrip(ls);
  }

  lemma ListenerPairIsFormatted(externalHost: string, externalPort: nat, brokerHost: string)
    ensures ListenerPair(externalHost, externalPort, brokerHost)
         == FormatListeners([Listener(ExternalListener, externalHost, externalPort),
                             Listener(BrokerListener, brokerHost, KafkaBrokerPort)])
  {
    var ls := [Listener(ExternalListener, externalHost, externalPort),
               Listener(BrokerListener, brokerHost, KafkaBrokerPort)];
    var a, b := FormatListener(ls[0]), FormatListener(ls[1]);
    assert FormatEntries(ls) == [a, b];
    assert [a, b][1..] == [b];
    assert Join([b], ',') == b;
    assert FormatListeners(ls) == a + [','] + b;
    assert a == "EXTERNAL_LISTENER://" + externalHost + ":" + Decimal(externalPort);
    assert b == "BROKER://" + brokerHost + ":" + Decimal(KafkaBrokerPort);
  }

  /** The address a listener binds to accept connections on every interface. */
  const AnyAddress := "0.0.0.0"

  /** The listeners the broker binds: both on every interface, on the two fixed ports. */
  const BoundListenersText := ListenerPair(AnyAddress, KafkaPort, AnyAddress)

  /**
   * The bound listener text is
   * `EXTERNAL_LISTENER://0.0.0.0:9093,BROKER://0.0.0.0:9092`, and it reads
   * back as those two listeners.
   */
  lemma BoundListeners()
    ensures BoundListenersText
         == "EXTERNAL_LISTENER://" + "0.0.0.0" + ":" + "9093" + ",BROKER://" + "0.0.0.0" + ":" + "9092"
    ensures ParseListeners(BoundListenersText)
         == Some([Listener(ExternalListener, "0.0.0.0", 9093), Listener(BrokerListener, "0.0.0.0", 9092)])
  {
    FixedPortsText();
    ListenerPairRoundTrip(AnyAddress, KafkaPort, AnyAddress);
  }

  /** The two fixed ports as a template literal renders them. */
  lemma FixedPortsText()
    ensures Decimal(KafkaPort) == "9093" && Decimal(KafkaBrokerPort) == "9092"
  {
  }

  /** The ZooKeeper container the broker provisions for itself. */
  function ZooKeeperSpec(name: string, clientPort: nat, networkMode: string): (spec: ContainerSpec)
    ensures ZooKeeperClientPortKey in spec.env
    ensures ParseDecimal(spec.env[ZooKeeperClientPortKey]) == Some(clientPort)
  {
    DecimalRoundTrip(clientPort);
    ContainerSpec(ZooKeeperImage, LatestTag, Some(name),
                  map[ZooKeeperClientPortKey := Decimal(clientPort)], Some(networkMode))
  }

  /** The environment once the pre-creation hook has written both listener lists. */
  function WithListeners(env: map<string, string>, dockerHost: string, boundPort: nat, host: string)
    : map<string, string>
  {
    env[ListenersKey := BoundListenersText][AdvertisedListenersKey := ListenerPair(dockerHost, boundPort, host)]
  }

  /**
   * What the pre-creation hook does to the container's state `st`, for the
   * dependency mode `mode` and the broker hostname `host`; the remaining
   * parameters are the answers of the collaborators, as for
   * `KafkaContainer.PreCreate`. A step that fails ends the hook and keeps what
   * earlier steps wrote or registered.
   */
  function Bootstrap(st: ContainerState, mode: DependencyMode, host: string,
                     dockerHost: string, boundPorts: map<nat, nat>, freshId: string,
                     allocatedPort: Answer<nat>, network: Answer<StartedNetwork>,
                     zooKeeperStart: Answer<string>): (ContainerState, Outcome)
  {
    if KafkaPort !in boundPorts then (st, PortNotBound(KafkaPort))
    else
      var listened := st.(env := WithListeners(st.env, dockerHost, boundPorts[KafkaPort], host));
      match mode
      case ExternallySupplied(zooKeeperHost, zooKeeperPort) =>
        (listened.(env := listened.env[ZooKeeperConnectKey := HostPort(zooKeeperHost, zooKeeperPort)]), Done)
      case SelfProvisioned => Provision(listened, freshId, allocatedPort, network, zooKeeperStart)
  }

  /**
   * The self-provisioning branch of `Bootstrap`: connect to a fresh ZooKeeper,
   * put it on the broker's network (starting one if the broker has none) and
   * register it once it runs.
   */
  function Provision(st: ContainerState, freshId: string, allocatedPort: Answer<nat>,
                     network: Answer<StartedNetwork>, zooKeeperStart: Answer<string>)
    : (ContainerState, Outcome)
  {
    match allocatedPort
    case Fail(reason) => (st, PortAllocationFailed(reason))
    case Ok(clientPort) =>
      var connected := st.(env := st.env[ZooKeeperConnectKey := HostPort(freshId, clientPort)]);
      if connected.networkMode.None? && network.Fail? then (connected, NetworkStartFailed(network.reason))
      else
        var joined :=
          if connected.networkMode.Some? then connected
          else connected.(additionalNetworks := connected.additionalNetworks + [network.value],
                          networkMode := Some(network.value.name));
        match zooKeeperStart
        case Fail(reason) => (joined, ZooKeeperStartFailed(reason))
        case Ok(id) =>
          var zooKeeper := StartedContainer(id, ZooKeeperSpec(freshId, clientPort, joined.networkMode.value));
          (joined.(additionalContainers := joined.additionalContainers + [zooKeeper]), Done)
  }

  /** Without a binding for the external port nothing is written and nothing is started. */
  lemma BootstrapNeedsBinding(st: ContainerState, mode: DependencyMode, host: string,
                              dockerHost: string, boundPorts: map<nat, nat>, freshId: string,
                              allocatedPort: Answer<nat>, network: Answer<StartedNetwork>,
                              zooKeeperStart: Answer<string>)
    ensures var (st', outcome) := Bootstrap(st, mode, host, dockerHost, boundPorts, freshId,
                                            allocatedPort, network, zooKeeperStart);
            && (outcome == PortNotBound(KafkaPort) <==> KafkaPort !in boundPorts)
            && (KafkaPort !in boundPorts ==> st' == st)
  {
  }

  /**
   * Once the binding is found, both listener lists are written, whatever
   * happens later; the advertised list reads back as the external listener on
   * the engine's host and bound port and the broker listener on the
   * container's own hostname.
   */
  lemma BootstrapWritesListeners(st: ContainerState, mode: DependencyMode, host: string,
                                 dockerHost: string, boundPorts: map<nat, nat>, freshId: string,
                                 allocatedPort: Answer<nat>, network: Answer<StartedNetwork>,
                                 zooKeeperStart: Answer<string>)
    requires KafkaPort in boundPorts
    ensures var (st', _) := Bootstrap(st, mode, host, dockerHost, boundPorts, freshId,
                                      allocatedPort, network, zooKeeperStart);
            && ListenersKey in st'.env && AdvertisedListenersKey in st'.env
            && st'.env[ListenersKey] == BoundListenersText
            && st'.env[AdvertisedListenersKey] == ListenerPair(dockerHost, boundPorts[KafkaPort], host)
            && (',' !in dockerHost && ',' !in host ==>
                  ParseListeners(st'.env[AdvertisedListenersKey])
                    == Some([Listener(ExternalListener, dockerHost, boundPorts[KafkaPort]),
                             Listener(BrokerListener, host, KafkaBrokerPort)]))
  {
    if ',' !in dockerHost && ',' !in host {
      ListenerPairRoundTrip(dockerHost, boundPorts[KafkaPort], host);
    }
  }

  /**
   * With a supplied ZooKeeper, the hook succeeds and writes exactly the
   * connect string `host:port` of the supplied ZooKeeper, which reads back as
   * that host and port; every other entry is the listeners' or was there
   * before, and no network or container is started.
   */
  lemma BootstrapExternal(st: ContainerState, zooKeeperHost: string, zooKeeperPort: nat, host: string,
                          dockerHost: string, boundPorts: map<nat, nat>, freshId: string,
                          allocatedPort: Answer<nat>, network: Answer<StartedNetwork>,
                          zooKeeperStart: Answer<string>)
    requires KafkaPort in boundPorts
    ensures var (st', outcome) := Bootstrap(st, ExternallySupplied(zooKeeperHost, zooKeeperPort), host,
                                            dockerHost, boundPorts, freshId,
                                            allocatedPort, network, zooKeeperStart);
            && outcome == Done
            && st'.env.Keys == st.env.Keys + {ListenersKey, AdvertisedListenersKey, ZooKeeperConnectKey}
            && st'.env[ZooKeeperConnectKey] == HostPort(zooKeeperHost, zooKeeperPort)
            && SplitHostPort(st'.env[ZooKeeperConnectKey]) == Some((zooKeeperHost, zooKeeperPort))
            && (forall k :: k in st.env && k !in {ListenersKey, AdvertisedListenersKey, ZooKeeperConnectKey}
                  ==> st'.env[k] == st.env[k])
            && st'.name == st.name
            && st'.networkMode == st.networkMode
            && st'.additionalNetworks == st.additionalNetworks
            && st'.additionalContainers == st.additionalContainers
  {
    HostPortRoundTrip(zooKeeperHost, zooKeeperPort);
  }

  /**
   * A self-provisioned bootstrap ends normally exactly when the client port is
   * allocated, a network is at hand (the broker already has a network mode, or
   * the new network starts) and the ZooKeeper starts; otherwise it ends with
   * the error of the first of these steps that failed.
   */
  lemma BootstrapProvisionOutcome(st: ContainerState, host: string,
                                  dockerHost: string, boundPorts: map<nat, nat>, freshId: string,
                                  allocatedPort: Answer<nat>, network: Answer<StartedNetwork>,
                                  zooKeeperStart: Answer<string>)
    requires KafkaPort in boundPorts
    ensures var (_, outcome) := Bootstrap(st, SelfProvisioned, host, dockerHost, boundPorts, freshId,
                                          allocatedPort, network, zooKeeperStart);
            && (outcome == Done <==>
                  allocatedPort.Ok? && (st.networkMode.Some? || network.Ok?) && zooKeeperStart.Ok?)
            && (allocatedPort.Fail? ==> outcome == PortAllocationFailed(allocatedPort.reason))
            && (allocatedPort.Ok? && st.networkMode.None? && network.Fail? ==>
                  outcome == NetworkStartFailed(network.reason))
            && (allocatedPort.Ok? && (st.networkMode.Some? || network.Ok?) && zooKeeperStart.Fail? ==>
                  outcome == ZooKeeperStartFailed(zooKeeperStart.reason))
  {
  }

  /**
   * When every step answers, the hook ends normally. The connect string is
   * exactly `freshId:clientPort`, written next to the listener lists, and the
   * name and every other entry stay as they were. When the broker had no
   * network mode, the started network is registered and its name becomes the
   * broker's network mode; otherwise both are kept. The one container
   * registered is the ZooKeeper, named with the fresh id, whose client port
   * entry is exactly the allocated port and whose network mode is the
   * broker's. Both texts read back as the values they were made from.
   */
  lemma BootstrapSelfProvisioned(st: ContainerState, host: string,
                                 dockerHost: string, boundPorts: map<nat, nat>, freshId: string,
                                 clientPort: nat, network: Answer<StartedNetwork>, id: string)
    requires KafkaPort in boundPorts
    requires st.networkMode.Some? || network.Ok?
    ensures var (st', outcome) := Bootstrap(st, SelfProvisioned, host, dockerHost, boundPorts, freshId,
                                            Ok(clientPort), network, Ok(id));
            && outcome == Done
            && st'.name == st.name
            && st'.env == WithListeners(st.env, dockerHost, boundPorts[KafkaPort], host)
                            [ZooKeeperConnectKey := HostPort(freshId, clientPort)]
            && st'.additionalNetworks
                 == st.additionalNetworks + (if st.networkMode.None? then [network.value] else [])
            && st'.networkMode
                 == (if st.networkMode.None? then Some(network.value.name) else st.networkMode)
            && st'.additionalContainers
                 == st.additionalContainers
                    + [StartedContainer(id, ContainerSpec(ZooKeeperImage, LatestTag, Some(freshId),
                                                          map[ZooKeeperClientPortKey := Decimal(clientPort)],
                                                          st'.networkMode))]
            && SplitHostPort(st'.env[ZooKeeperConnectKey]) == Some((freshId, clientPort))
            && ParseDecimal(st'.additionalContainers[|st.additionalContainers|]
                              .spec.env[ZooKeeperClientPortKey]) == Some(clientPort)
  {
    HostPortRoundTrip(freshId, clientPort);
  }

  /**
   * A failed step is not rolled back. Whatever the answers, the name is never
   * touched, and a run that fails registers no container. A failed port allocation leaves only the listener
   * lists written. A failed network start leaves the connect string written
   * too. A ZooKeeper that fails to start leaves, besides, the network started
   * for it registered and joined, or the broker's own network mode in place.
   */
  lemma BootstrapKeepsPartialWork(st: ContainerState, host: string,
                                  dockerHost: string, boundPorts: map<nat, nat>, freshId: string,
                                  allocatedPort: Answer<nat>, network: Answer<StartedNetwork>,
                                  zooKeeperStart: Answer<string>)
    requires KafkaPort in boundPorts
    ensures var listened := WithListeners(st.env, dockerHost, boundPorts[KafkaPort], host);
            var (st', outcome) := Bootstrap(st, SelfProvisioned, host, dockerHost, boundPorts, freshId,
                                            allocatedPort, network, zooKeeperStart);
            && st'.name == st.name
            && (outcome != Done ==> st'.additionalContainers == st.additionalContainers)
            && (allocatedPort.Fail? ==>
                  && st'.env == listened
                  && st'.networkMode == st.networkMode
                  && st'.additionalNetworks == st.additionalNetworks)
            && (allocatedPort.Ok? ==>
                  st'.env == listened[ZooKeeperConnectKey := HostPort(freshId, allocatedPort.value)])
            && (allocatedPort.Ok? && st.networkMode.None? && network.Fail? ==>
                  && st'.networkMode.None?
                  && st'.additionalNetworks == st.additionalNetworks)
            && (allocatedPort.Ok? && st.networkMode.None? && network.Ok? ==>
                  && st'.networkMode == Some(network.value.name)
                  && st'.additionalNetworks == st.additionalNetworks + [network.value])
            && (allocatedPort.Ok? && st.networkMode.Some? ==>
                  && st'.networkMode == st.networkMode
                  && st'.additionalNetworks == st.additionalNetworks)
  {
  }

  class KafkaContainer {
    /** The generic container this one extends. */
    const container: GenericContainer
    /** The broker's hostname inside the container network; also the container's name. */
    const host: string
    var isZooKeeperProvided: bool
    var zooKeeperHost: Option<string>
    var zooKeeperPort: Option<nat>

    /** The supplied ZooKeeper's host and port are set exactly when one is supplied. */
    ghost predicate Valid()
      reads this
    {
      zooKeeperHost.Some? == isZooKeeperProvided && zooKeeperPort.Some? == isZooKeeperProvided
    }

    ghost function Mode(): DependencyMode
      reads this
      requires Valid()
    {
      if isZooKeeperProvided then ExternallySupplied(zooKeeperHost.value, zooKeeperPort.value)
      else SelfProvisioned
    }

    /**
     * `freshUuid` is what the UUID generator would hand out; it is used only
     * when no host is given.
     */
    constructor (freshUuid: string, image: string := KafkaImage, tag: string := LatestTag,
                 host: Option<string> := None)
      ensures Valid() && Mode() == SelfProvisioned
      ensures fresh(container) && container.image == image && container.tag == tag
      ensures this.host == (if host.Some? then host.value else freshUuid)
      ensures container.State() == ContainerState(Some(this.host), FixedEnv, None, [], [])
    {
      container := new GenericContainer(image, tag);
      this.host := if host.None? then freshUuid else host.value;
      isZooKeeperProvided := false;
      zooKeeperHost := None;
      zooKeeperPort := None;
      new;
      container.WithName(this.host);
      container.WithEnv("KAFKA_LISTENER_SECURITY_PROTOCOL_MAP",
                        "BROKER:PLAINTEXT,EXTERNAL_LISTENER:PLAINTEXT,PLAINTEXT:PLAINTEXT");
      container.WithEnv("KAFKA_INTER_BROKER_LISTENER_NAME", "BROKER");
      container.WithEnv("KAFKA_BROKER_ID", "1");
      container.WithEnv("KAFKA_OFFSETS_TOPIC_REPLICATION_FACTOR", "1");
      container.WithEnv("KAFKA_CONFLUENT_SUPPORT_METRICS_ENABLE", "false");
    }

    /** Switches to a ZooKeeper the caller runs at `host:port`. */
    method WithZooKeeper(host: string, port: nat) returns (self: KafkaContainer)
      modifies this
      ensures self == this
      ensures Valid() && Mode() == ExternallySupplied(host, port)
      ensures isZooKeeperProvided && zooKeeperHost == Some(host) && zooKeeperPort == Some(port)
      ensures unchanged(container)
    {
      isZooKeeperProvided := true;
      zooKeeperHost := Some(host);
      zooKeeperPort := Some(port);
      self := this;
    }

    /**
     * Runs after the engine has bound the container's ports and before it
     * creates the container. `boundPorts` maps declared ports to host ports;
     * `dockerHost` is the engine's externally visible host. `freshId`,
     * `allocatedPort`, `network` and `zooKeeperStart` are the answers of the
     * UUID generator, the port client, the network start and the ZooKeeper
     * start; each is consulted only if the hook gets that far.
     */
    method PreCreate(dockerHost: string, boundPorts: map<nat, nat>, freshId: string,
                     allocatedPort: Answer<nat>, network: Answer<StartedNetwork>,
                     zooKeeperStart: Answer<string>)
      returns (outcome: Outcome)
      requires Valid()
      modifies container
      ensures (container.State(), outcome)
           == Bootstrap(old(container.State()), Mode(), host, dockerHost, boundPorts, freshId,
                        allocatedPort, network, zooKeeperStart)
    {
      if KafkaPort !in boundPorts {
        return PortNotBound(KafkaPort);
      }
      var kafkaInternalPort := boundPorts[KafkaPort];

      container.WithEnv(ListenersKey, BoundListenersText);
      container.WithEnv(AdvertisedListenersKey, ListenerPair(dockerHost, kafkaInternalPort, host));

      if isZooKeeperProvided {
        container.WithEnv(ZooKeeperConnectKey, HostPort(zooKeeperHost.value, zooKeeperPort.value));
        return Done;
      }

      outcome := ProvisionZooKeeper(freshId, allocatedPort, network, zooKeeperStart);
    }

    /** The self-provisioning branch of `PreCreate`. */
    method ProvisionZooKeeper(freshId: string, allocatedPort: Answer<nat>,
                              network: Answer<StartedNetwork>, zooKeeperStart: Answer<string>)
      returns (outcome: Outcome)
      modifies container
      ensures (container.State(), outcome)
           == Provision(old(container.State()), freshId, allocatedPort, network, zooKeeperStart)
    {
      var zooKeeperId := freshId;
      if allocatedPort.Fail? {
        return PortAllocationFailed(allocatedPort.reason);
      }
      var clientPort := allocatedPort.value;
      container.WithEnv(ZooKeeperConnectKey, HostPort(zooKeeperId, clientPort));

      var zooKeeper := new GenericContainer(ZooKeeperImage, LatestTag);
      zooKeeper.WithName(zooKeeperId);
      zooKeeper.WithEnv(ZooKeeperClientPortKey, Decimal(clientPort));

      if container.networkMode.Some? {
        zooKeeper.WithNetworkMode(container.networkMode.value);
      } else {
        if network.Fail? {
          return NetworkStartFailed(network.reason);
        }
        container.additionalNetworks := container.additionalNetworks + [network.value];
        container.WithNetworkMode(network.value.name);
        zooKeeper.WithNetworkMode(network.value.name);
      }

      var started := zooKeeper.Start(zooKeeperStart);
      if started.Fail? {
        return ZooKeeperStartFailed(started.reason);
      }
      container.additionalContainers := container.additionalContainers + [started.value];
      outcome := Done;
    }
  }
}
