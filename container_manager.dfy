/**
 * ContainerManager: the registry of the containers this warden serves, keyed by
 * container handle, and the destruction of a container through the janitor.
 */
module Containers {
  import opened Wrappers
  import opened Json
  import opened Faults
  import opened JsonAccess

  /** A container as the registry sees it: its handle (possibly null), its assigned port and its display text. */
  datatype ContainerClient = ContainerClient(handle: Option<string>, assignedPort: Option<int>, display: string)

  /** An unsigned 16-bit value, the type of the configured TCP port. */
  type UInt16 = x: int | 0 <= x < 0x1_0000

  /** The configuration the manager reads when destroying a container. */
  datatype WardenConfig = WardenConfig(containerBasePath: string, tcpPort: UInt16, deleteContainerDirectories: bool)

  /** One call of the janitor's `DestroyContainerAsync`, with the arguments it was given. */
  datatype JanitorCall = JanitorCall(handle: string, containerBasePath: string, tcpPort: string, deleteDirectories: bool, port: Option<int>)

  /** The message of the WardenException for a container whose handle is already registered. */
  function AddFailureMessage(container: ContainerClient): string
  {
    "Could not add container '" + container.display + "' to collection!"
  }

  /** The janitor call for destroying `handle` when the registry held `removed` under it. */
  function JanitorCallFor(config: WardenConfig, handle: string, removed: Option<ContainerClient>): (c: JanitorCall)
    ensures c.handle == handle && c.containerBasePath == config.containerBasePath
    ensures c.tcpPort == IntText(config.tcpPort) && c.deleteDirectories == config.deleteContainerDirectories
    ensures removed.None? ==> c.port.None?
    ensures removed.Some? ==> c.port == removed.value.assignedPort
  {
    JanitorCall(handle, config.containerBasePath, IntText(config.tcpPort), config.deleteContainerDirectories,
                if removed.Some? then removed.value.assignedPort else None)
  }

  class ContainerManager {
    const config: WardenConfig
    /** `containers`: the registered containers keyed by handle. */
    var containers: map<string, ContainerClient>
    /** Every janitor call made so far, in order. */
    var janitorCalls: seq<JanitorCall>

    constructor (config: WardenConfig)
      ensures this.config == config && containers == map[] && janitorCalls == []
    {
      this.config := config;
      containers := map[];
      janitorCalls := [];
    }

    /** `Handles`: the handles of the registered containers. */
    function Handles(): (r: set<string>)
      reads this
      ensures forall h :: h in r <==> GetContainer(h).Some?
    {
      containers.Keys
    }

    /** `GetContainer(handle)`: the container registered under the handle, or null. */
    function GetContainer(handle: string): (r: Option<ContainerClient>)
      reads this
      ensures r.Some? <==> handle in containers
      ensures r.Some? ==> r.value == containers[handle]
    {
      if handle in containers then Some(containers[handle]) else None
    }

    /**
     * `AddContainer`: registers a container under its handle. A null handle throws
     * ArgumentNullException; a handle already registered throws WardenException. On
     * either failure the registry is unchanged.
     */
    method AddContainer(container: ContainerClient) returns (outcome: Outcome<Exception>)
      modifies this`containers
      ensures container.handle.None? ==> outcome == Fail(ArgumentNull("key")) && containers == old(containers)
      ensures container.handle.Some? && container.handle.value in old(containers) ==>
        outcome == Fail(Warden(AddFailureMessage(container))) && containers == old(containers)
      ensures container.handle.Some? && container.handle.value !in old(containers) ==>
        outcome == Pass && containers == old(containers)[container.handle.value := container]
    {
      if container.handle.None? {
        return Fail(ArgumentNull("key"));
      }
      var handle := container.handle.value;
      if handle in containers {
        return Fail(Warden(AddFailureMessage(container)));
      }
      containers := containers[handle := container];
      outcome := Pass;
    }

    /**
     * `DestroyContainerAsync(handle)`: a null handle throws ArgumentNullException
     * before anything changes. Otherwise the handle is removed and the janitor is
     * called with the configuration and the removed container's port (null when
     * nothing was registered); what the janitor throws, `janitorOutcome`, escapes.
     */
    method DestroyContainer(handle: Option<string>, janitorOutcome: Outcome<Exception>) returns (outcome: Outcome<Exception>)
      modifies this`containers, this`janitorCalls
      ensures handle.None? ==>
        outcome == Fail(ArgumentNull("handle")) && containers == old(containers) && janitorCalls == old(janitorCalls)
      ensures handle.Some? ==>
        outcome == janitorOutcome
        && containers == old(containers) - {handle.value}
        && janitorCalls == old(janitorCalls) + [JanitorCallFor(config, handle.value, old(GetContainer(handle.value)))]
    {
      if handle.None? {
        return Fail(ArgumentNull("handle"));
      }
      var h := handle.value;
      var removed := GetContainer(h);
      if removed.Some? {
        containers := containers - {h};
      }
      janitorCalls := janitorCalls + [JanitorCallFor(config, h, removed)];
      outcome := janitorOutcome;
    }

    /** `DestroyContainerAsync(container)`: destroys by the container's handle. */
    method DestroyContainerOf(container: ContainerClient, janitorOutcome: Outcome<Exception>) returns (outcome: Outcome<Exception>)
      modifies this`containers, this`janitorCalls
      ensures container.handle.None? ==>
        outcome == Fail(ArgumentNull("handle")) && containers == old(containers) && janitorCalls == old(janitorCalls)
      ensures container.handle.Some? ==>
        outcome == janitorOutcome
        && containers == old(containers) - {container.handle.value}
        && janitorCalls == old(janitorCalls) + [JanitorCallFor(config, container.handle.value, old(GetContainer(container.handle.value)))]
    {
      outcome := DestroyContainer(container.handle, janitorOutcome);
    }
  }

  /** The port text the janitor receives reads back as the configured port. */
  lemma TcpPortTextRoundTrip(port: UInt16)
    ensures ParseInt32(IntText(port)) == Success(port)
  {
    IntTextParses(port);
  }
}
