# Kafka test container bootstrap, modelled in Dafny

This project models the Kafka module of testcontainers-node
(`src/modules/kafka/kafka-container.ts`). The Kafka test container is a
broker that needs a ZooKeeper. The caller either names one with
`withZooKeeper(host, port)`, or leaves it out. In that case the container's
pre-creation hook (`preCreate`) starts a ZooKeeper container itself. The hook
runs after the engine has bound the broker's ports and before the engine creates
the broker. It does four things:

- it writes the bound and the advertised listener lists;
- it writes the ZooKeeper connect string;
- in self-provisioned mode, it puts the ZooKeeper container on the broker's
  network, starting and registering a new network when the broker has none;
- it registers the started ZooKeeper container so that it is torn down with
  the broker.

Files:

- `options.dfy`: `Option`, for values that may be `undefined`.
- `text.dfy`: the environment entries' formats, each with its parser and a
  round-trip lemma:
  - decimal port numbers;
  - `host:port` connect strings;
  - comma-separated `NAME://host:port` listener lists.
- `containers.dfy`: the part of `GenericContainer` the Kafka container
  relies on. It has a name, an environment map, a network mode and the two
  registries `additionalNetworks` and `additionalContainers`. Starting a
  container yields a handle that records the configuration it was started
  with.
- `kafka.dfy`: the class `KafkaContainer`, with its constructor,
  `WithZooKeeper` and `PreCreate`. Beside it is `Bootstrap`, a pure function
  that says what the hook does to the container's state. `PreCreate` is proved
  equal to it, and the properties of the hook are lemmas about `Bootstrap`.

How the model is set up:

- `KafkaContainer` extends `GenericContainer` in the source. Here it holds its
  generic part as the field `container`, and `PreCreate` modifies only that
  object.
- The UUID generator's next value, which the hook takes without awaiting, is
  the plain string parameter `freshId`.
- The collaborators the hook awaits are parameters too. Each is an `Answer`
  (`Ok(value)` or `Fail(reason)`), because each can fail. They are:
  - the port client's port;
  - the network start;
  - the ZooKeeper container start.

  A failure ends the hook with the matching `Outcome`. Whatever earlier steps
  wrote or registered stays in place.
- `boundPorts.getBinding(9093)` is a map lookup. When port 9093 is unbound,
  the hook ends with `PortNotBound` before it writes anything.
- The implementation of `GenericContainer` is not part of this model.
  `containers.dfy` models the behaviour assumed of it:
  - a fresh container has no name, an empty environment, no network mode and
    empty registries;
  - `withEnv` on a key that is already set replaces the old value;
  - `withName` and `withNetworkMode` set their field.

## Model

| member | source | states |
|---|---|---|
| `Kafka.KafkaContainer.constructor` | src/modules/kafka/kafka-container.ts:19-31 | The host is the given host, or the fresh UUID when none is given. The container's name is that host. Its environment is exactly the five fixed entries with their literal values. There is no network mode, both registries are empty, and the ZooKeeper mode is self-provisioned. |
| `Kafka.KafkaContainer.WithZooKeeper` | src/modules/kafka/kafka-container.ts:33-38 | Sets the provided flag and stores host and port, so the mode becomes externally supplied. The generic container is unchanged, and the same object is returned. |
| `Kafka.KafkaContainer.PreCreate` | src/modules/kafka/kafka-container.ts:40-75 | The new container state and the outcome are exactly `Bootstrap` applied to the old state, the container's mode, its host and the collaborators' answers. |
| `Kafka.KafkaContainer.ProvisionZooKeeper` | src/modules/kafka/kafka-container.ts:53-74 | The new state and outcome of the self-provisioning branch are exactly `Provision` of the old state and the answers. |
| `Kafka.BootstrapNeedsBinding` | src/modules/kafka/kafka-container.ts:41-45 | The hook fails with `PortNotBound(9093)` exactly when port 9093 has no binding. In that case the state is unchanged. |
| `Kafka.BootstrapWritesListeners` | src/modules/kafka/kafka-container.ts:41-49 | Once the binding exists, `KAFKA_LISTENERS` and `KAFKA_ADVERTISED_LISTENERS` hold the two listener texts, whatever happens later. If neither host holds a comma, the advertised list reads back as EXTERNAL_LISTENER on the engine host and bound port, and BROKER on the container's own host at 9092. |
| `Kafka.BootstrapExternal` | src/modules/kafka/kafka-container.ts:51-52 | With a supplied ZooKeeper the hook succeeds. Exactly the three keys are added or overwritten, and every other entry keeps its value. The connect string is exactly the text `host:port` of the supplied host and port, and it reads back as exactly the supplied host and port. Name, network mode and both registries are unchanged. |
| `Kafka.BootstrapProvisionOutcome` | src/modules/kafka/kafka-container.ts:53-74 | Once the binding exists, a self-provisioned run ends normally exactly when the port is allocated, a network is at hand (a network mode was already set, or the new network starts) and the ZooKeeper starts. Otherwise it fails with the error of the first failing step: port allocation, then network start, then ZooKeeper start. |
| `Kafka.BootstrapSelfProvisioned` | src/modules/kafka/kafka-container.ts:53-74 | When every step answers, the run ends normally. The name is unchanged. The environment is the old one with the two listener lists and the connect string written, and the connect string is exactly `freshId:port`. With no network mode set, the started network is registered and its name becomes the broker's network mode; otherwise networks and mode are kept. Exactly one container is registered: the ZooKeeper image at tag `latest`, named with the fresh id, whose only entry `ZOOKEEPER_CLIENT_PORT` is the port's decimal text, on the broker's network mode. The connect string and the client-port entry read back as the id and the port. |
| `Kafka.BootstrapKeepsPartialWork` | src/modules/kafka/kafka-container.ts:54-72 | A failed run is not rolled back. Whatever the answers, the name is never changed, and a failed run registers no container. A failed port allocation leaves only the two listener lists written, whatever the other answers are. Any later failure also leaves the connect string `freshId:port` written. A failed network start leaves no network mode and no new network. A ZooKeeper start failure leaves the new network registered and set as the broker's network mode, or the preset network mode as it was. |
| `Kafka.ZooKeeperSpec` | src/modules/kafka/kafka-container.ts:59-61 | The ZooKeeper descriptor's `ZOOKEEPER_CLIENT_PORT` entry exists and reads back as the allocated port. |
| `Kafka.ListenerPairIsFormatted` | src/modules/kafka/kafka-container.ts:45-49 | The listener template text is the comma-separated list of the EXTERNAL_LISTENER and BROKER listeners. |
| `Kafka.ListenerPairRoundTrip` | src/modules/kafka/kafka-container.ts:46-49 | If neither host holds a comma, the listener template reads back as exactly the two listeners it was made from. |
| `Kafka.BoundListeners` | src/modules/kafka/kafka-container.ts:41-45 | `KAFKA_LISTENERS` is `EXTERNAL_LISTENER://0.0.0.0:9093,BROKER://0.0.0.0:9092`. It reads back as both listeners on 0.0.0.0, on ports 9093 and 9092. |
| `Kafka.FixedPortsText` | src/modules/kafka/kafka-container.ts:41-43 | The fixed ports render as `9093` and `9092`. |
| `Text.Decimal` | src/modules/kafka/kafka-container.ts:57 | A port renders as a non-empty string of decimal digits, with no leading zero unless the port is 0. |
| `Text.DecimalRoundTrip` | src/modules/kafka/kafka-container.ts:61 | Parsing a port's decimal text gives back the port. |
| `Text.HostPortRoundTrip` | src/modules/kafka/kafka-container.ts:52 | Split at its last colon, a `host:port` connect string gives back exactly its host and port, even when the host holds colons. |
| `Text.ListenersRoundTrip` | src/modules/kafka/kafka-container.ts:45-49 | A non-empty list of listeners whose names hold no colon or comma, and whose hosts hold no comma, parses back to itself. |
| `Containers.GenericContainer.constructor` | src/modules/kafka/kafka-container.ts:59 | A new container has the given image and tag, no name, an empty environment, no network mode and empty registries. |
| `Containers.GenericContainer.WithName` | src/modules/kafka/kafka-container.ts:22 | Sets the name and changes nothing else. |
| `Containers.GenericContainer.WithEnv` | src/modules/kafka/kafka-container.ts:23-30 | Sets one entry, replacing any earlier value for that key, and changes nothing else. |
| `Containers.GenericContainer.WithNetworkMode` | src/modules/kafka/kafka-container.ts:64 | Sets the network mode and changes nothing else. |
| `Containers.GenericContainer.Start` | src/modules/kafka/kafka-container.ts:72 | A successful start gives a handle that records the engine's id and the configuration the container had. A failed start gives the engine's error. |

## Left out

- The engine calls are not modelled. These are `dockerClient.getHost()`,
  `boundPorts.getBinding`, `new Network().start()` and
  `zookeeperContainer.start()`. Their results are parameters.
- The randomness of the UUID generator and the free-port search of the port
  client are not modelled. The fresh id and the port are parameters.
  Uniqueness of ids and ports is not something `kafka-container.ts` guarantees.
- `async`/`await` ordering and concurrency between containers are not
  modelled. Each awaited step is one step of a sequential method.
- Teardown is not modelled. How `additionalNetworks` and
  `additionalContainers` are released is `GenericContainer` code, which is not
  part of this model.
- Failure rollback is not modelled, because the code has none. A failed step
  lets its error propagate, and whatever earlier steps wrote or registered stays
  in place. `Kafka.BootstrapKeepsPartialWork` states what is left behind.
- `GenericContainer` internals beyond the assumptions listed above are not
  modelled. That covers image references, ports, commands and mounts.
- The `with*` builders return the container for chaining in the source. In the
  model only `WithZooKeeper` returns it, because Dafny method calls do not
  chain.
- Ports and hosts are not fully modelled. `Port` is a JavaScript number, and
  the model uses natural numbers, so negative or fractional ports are not
  modelled. Neither are ports of 10^21 and above, which JavaScript writes in
  exponent form while `Text.Decimal` writes all their digits. `Host` is any
  string.
- `Kafka.ListenerPairRoundTrip`: holds only for hosts without commas. The
  listener list uses commas as its separator, so a host with a comma makes
  the written list ambiguous.
