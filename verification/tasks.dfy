/**
  The records of package `task` that the manager stores and hands to the
  container runtime: Task, TaskEvent and Config, and the projection NewConfig
  from a Task to the Config a container is launched with.
 */
module Tasks {

  /** A task or event identifier (github.com/google/uuid); only carried and compared. */
  type Uuid(==)

  /** A wall-clock instant (Go's time.Time); only carried. */
  type Time(==)

  /** An IEEE 754 double (Go's float64), used for the requested CPU; only copied. */
  type Float64(==)

  /** The lifecycle state of a task; its definition is not part of this model. */
  type State(==)

  /** Go's int64 (and the platform int of RestartCount, taken as 64 bits). */
  type Int64 = x: int | -0x8000_0000_0000_0000 <= x < 0x8000_0000_0000_0000

  /** A host address a container port is published on (docker's nat.PortBinding). */
  datatype PortBinding = PortBinding(hostIp: string, hostPort: string)

  /** docker's nat.PortSet: a set of "port/protocol" names. */
  type PortSet = set<string>

  /** docker's nat.PortMap: each container port to its host bindings. */
  type PortMap = map<string, seq<PortBinding>>

  /** A unit of schedulable containerised work. */
  datatype Task = Task(
    id: Uuid,
    containerId: string,
    name: string,
    state: State,
    image: string,
    memory: Int64,
    disk: Int64,
    cpu: Float64,
    exposedPorts: PortSet,
    hostPorts: PortMap,
    portBindings: map<string, string>,
    restartPolicy: string,
    startTime: Time,
    finishTime: Time,
    healthCheck: string,
    restartCount: Int64)

  /**
    A desired state change. The task is a field of the event, held by value:
    the event carries its own copy of the task, with an identifier of its own.
   */
  datatype TaskEvent = TaskEvent(id: Uuid, state: State, timestamp: Time, task: Task)

  /** The settings a container is created from. */
  datatype Config = Config(
    name: string,
    attachStdin: bool,
    attachStdout: bool,
    attachStderr: bool,
    exposedPorts: PortSet,
    cmd: seq<string>,
    image: string,
    cpu: Float64,
    memory: Int64,
    disk: Int64,
    env: seq<string>,
    restartPolicy: string)

  /** `c` carries exactly the container specification of task `t`. */
  predicate CarriesSpecOf(c: Config, t: Task)
  {
    && c.name == t.name
    && c.image == t.image
    && c.cpu == t.cpu
    && c.memory == t.memory
    && c.disk == t.disk
    && c.exposedPorts == t.exposedPorts
    && c.restartPolicy == t.restartPolicy
  }

  /** `c` sets no command, no environment and attaches no standard stream. */
  predicate IsBareLaunch(c: Config)
  {
    c.cmd == [] && c.env == [] && !c.attachStdin && !c.attachStdout && !c.attachStderr
  }

  /** Two tasks ask for the same container: same name, image, resources, ports and policy. */
  predicate SameContainerSpec(t1: Task, t2: Task)
  {
    && t1.name == t2.name
    && t1.image == t2.image
    && t1.cpu == t2.cpu
    && t1.memory == t2.memory
    && t1.disk == t2.disk
    && t1.exposedPorts == t2.exposedPorts
    && t1.restartPolicy == t2.restartPolicy
  }

  /**
    The container configuration of a task: its name, image, resources, exposed
    ports and restart policy, with every other setting left at Go's zero value.
   */
  function NewConfig(t: Task): (c: Config)
    ensures CarriesSpecOf(c, t)
    ensures IsBareLaunch(c)
  {
    Config(
      name := t.name,
      attachStdin := false,
      attachStdout := false,
      attachStderr := false,
      exposedPorts := t.exposedPorts,
      cmd := [],
      image := t.image,
      cpu := t.cpu,
      memory := t.memory,
      disk := t.disk,
      env := [],
      restartPolicy := t.restartPolicy)
  }

  /** The two properties NewConfig ensures pin its result down completely. */
  lemma NewConfigUnique(t: Task, c: Config)
    ensures CarriesSpecOf(c, t) && IsBareLaunch(c) <==> c == NewConfig(t)
  {
  }

  /** Two tasks get the same configuration exactly when they ask for the same container. */
  lemma NewConfigDeterminedBySpec(t1: Task, t2: Task)
    ensures NewConfig(t1) == NewConfig(t2) <==> SameContainerSpec(t1, t2)
  {
  }

  /**
    The runtime fields the manager and workers update (identity, container,
    state, times, ports bound on the host, health check, restart count) never
    reach the container configuration.
   */
  lemma NewConfigIgnoresRuntimeFields(t: Task, id: Uuid, containerId: string, state: State,
                                      hostPorts: PortMap, portBindings: map<string, string>,
                                      startTime: Time, finishTime: Time, healthCheck: string,
                                      restartCount: Int64)
    ensures NewConfig(t.(id := id, containerId := containerId, state := state,
                         hostPorts := hostPorts, portBindings := portBindings,
                         startTime := startTime, finishTime := finishTime,
                         healthCheck := healthCheck, restartCount := restartCount))
            == NewConfig(t)
  {
  }
}
