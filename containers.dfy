/**
 * The generic container that the Kafka container extends and that the
 * ZooKeeper dependency is built from. Only the parts the Kafka bootstrap uses
 * are modelled: a name, an environment map (a later entry for the same key
 * replaces an earlier one), a network mode, and the two registries of
 * auxiliary resources (networks and started containers) that are torn down
 * with the container.
 */
module Containers {
  import opened Options

  /** What an awaited engine call gives back: its value, or the error it raised. */
  datatype Answer<T> = Ok(value: T) | Fail(reason: string)

  /** A network the engine has started; containers join it by its name. */
  datatype StartedNetwork = StartedNetwork(id: string, name: string)

  /** Everything a container is configured with when the engine starts it. */
  datatype ContainerSpec = ContainerSpec(
    image: string,
    tag: string,
    name: Option<string>,
    env: map<string, string>,
    networkMode: Option<string>)

  /** A running container: the engine's handle and the configuration it was started from. */
  datatype StartedContainer = StartedContainer(id: string, spec: ContainerSpec)

  /**
   * The mutable part of a container: its configuration and the auxiliary
   * resources registered to be torn down with it.
   */
  datatype ContainerState = ContainerState(
    name: Option<string>,
    env: map<string, string>,
    networkMode: Option<string>,
    additionalNetworks: seq<StartedNetwork>,
    additionalContainers: seq<StartedContainer>)

  class GenericContainer {
    const image: string
    const tag: string
    var name: Option<string>
    var env: map<string, string>
    var networkMode: Option<string>
    var additionalNetworks: seq<StartedNetwork>
    var additionalContainers: seq<StartedContainer>

    constructor (image: string, tag: string)
      ensures this.image == image && this.tag == tag
      ensures State() == ContainerState(None, map[], None, [], [])
    {
      this.image := image;
      this.tag := tag;
      name := None;
      env := map[];
      networkMode := None;
      additionalNetworks := [];
      additionalContainers := [];
    }

    function State(): ContainerState
      reads this
    {
      ContainerState(name, env, networkMode, additionalNetworks, additionalContainers)
    }

    /** The configuration the engine would start this container with. */
    function Spec(): ContainerSpec
      reads this
    {
      ContainerSpec(image, tag, name, env, networkMode)
    }

    method WithName(name: string)
      modifies this
      ensures this.name == Some(name)
      ensures env == old(env) && networkMode == old(networkMode)
      ensures additionalNetworks == old(additionalNetworks)
      ensures additionalContainers == old(additionalContainers)
    {
      this.name := Some(name);
    }

    method WithEnv(key: string, value: string)
      modifies this
      ensures env == old(env)[key := value]
      ensures name == old(name) && networkMode == old(networkMode)
      ensures additionalNetworks == old(additionalNetworks)
      ensures additionalContainers == old(additionalContainers)
    {
      env := env[key := value];
    }

    method WithNetworkMode(networkMode: string)
      modifies this
      ensures this.networkMode == Some(networkMode)
      ensures name == old(name) && env == old(env)
      ensures additionalNetworks == old(additionalNetworks)
      ensures additionalContainers == old(additionalContainers)
    {
      this.networkMode := Some(networkMode);
    }

    /**
     * Asks the engine to start this container; `engine` is the engine's
     * answer, which is either the new container's id or the error it raised.
     */
    method Start(engine: Answer<string>) returns (started: Answer<StartedContainer>)
      ensures engine.Ok? ==> started == Ok(StartedContainer(engine.value, Spec()))
      ensures engine.Fail? ==> started == Fail(engine.reason)
    {
      if engine.Ok? {
        started := Ok(StartedContainer(engine.value, Spec()));
      } else {
        started := Fail(engine.reason);
      }
    }
  }
}
