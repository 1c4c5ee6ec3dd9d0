/** Role defaults merged into a user's configuration, in place. The user's resources object is
    changed through a second pointer to it, or replaced, or left for the role's own object. */
module RoleConfig {
  import opened Text
  import opened ClusterComponents

  /** CPU in thousandths; memory and storage in bytes. */
  datatype Cpu = Cpu(min: int, max: int)

  const MI := 1024 * 1024
  const GI := 1024 * MI

  class ResourcesSpec {
    var cpu: Option<Cpu>
    var memory: Option<int>
    var storage: Option<int>

    constructor (cpu: Option<Cpu>, memory: Option<int>, storage: Option<int>)
      ensures Values() == Resources(cpu, memory, storage)
    {
      this.cpu, this.memory, this.storage := cpu, memory, storage;
    }

    ghost function Values(): Resources
      reads this
    {
      Resources(cpu, memory, storage)
    }
  }

  /** What a resources object holds. */
  datatype Resources = Resources(cpu: Option<Cpu>, memory: Option<int>, storage: Option<int>)

  class RoleGroupConfigSpec {
    var resources: ResourcesSpec?

    constructor ()
      ensures resources == null
    {
      resources := null;
    }
  }

  class ConfigSpec {
    var roleGroup: RoleGroupConfigSpec?
    var listenerClass: Option<string>

    constructor (roleGroup: RoleGroupConfigSpec?, listenerClass: Option<string>)
      ensures this.roleGroup == roleGroup && this.listenerClass == listenerClass
    {
      this.roleGroup, this.listenerClass := roleGroup, listenerClass;
    }

    /** The user's resources, if the pointers lead to any. */
    ghost function UserResources(): Option<Resources>
      reads this, roleGroup, if roleGroup == null then null else roleGroup.resources
    {
      if roleGroup == null || roleGroup.resources == null then None else Some(roleGroup.resources.Values())
    }
  }

  /** The user gives storage and nothing else. */
  predicate StorageOnly(user: Option<Resources>)
  {
    user.Some? && user.value.cpu.None? && user.value.memory.None? && user.value.storage.Some?
  }

  /** `merged` follows the absent/zero/default rules. Resources that are absent altogether are
      the role's. Otherwise CPU and memory are unset if both are absent; if one of them is absent
      it is the role's, and one that is given as zero is unset. Absent storage is the role's, and
      storage given on its own is lost. */
  ghost predicate MergedFrom(merged: Resources, user: Option<Resources>, role: Resources)
  {
    match user
    case None => merged == role
    case Some(u) =>
      && (u.cpu.None? && u.memory.None? ==> merged.cpu.None? && merged.memory.None?)
      && (u.cpu.None? && u.memory.Some? ==> merged.cpu == role.cpu)
      && (u.cpu.Some? ==> merged.cpu == if u.cpu.value == Cpu(0, 0) then None else u.cpu)
      && (u.memory.None? && u.cpu.Some? ==> merged.memory == role.memory)
      && (u.memory.Some? ==> merged.memory == if u.memory.value == 0 then None else u.memory)
      && merged.storage == if u.storage.None? then role.storage else if StorageOnly(user) then None else u.storage
  }

  class RoleNodeConfig {
    const resources: ResourcesSpec
    const listenerClass: string

    constructor (resources: ResourcesSpec, listenerClass: string)
      ensures this.resources == resources && this.listenerClass == listenerClass
    {
      this.resources, this.listenerClass := resources, listenerClass;
    }

    /** Merges into the object the caller passed. The role's object is only ever changed if it is
        itself the one the configuration points to. */
    method MergeDefaultConfig(mergedCfg: ConfigSpec)
      modifies mergedCfg, mergedCfg.roleGroup, if mergedCfg.roleGroup == null then null else mergedCfg.roleGroup.resources
      ensures mergedCfg.roleGroup != null && mergedCfg.roleGroup.resources != null
      ensures MergedFrom(mergedCfg.roleGroup.resources.Values(), old(mergedCfg.UserResources()), old(resources.Values()))
      ensures (old(mergedCfg.roleGroup) != null && old(mergedCfg.roleGroup.resources) == resources)
              || resources.Values() == old(resources.Values())
      ensures mergedCfg.listenerClass ==
              if old(mergedCfg.listenerClass).None? && listenerClass != "" then Some(listenerClass) else old(mergedCfg.listenerClass)
    {
      if mergedCfg.roleGroup == null {
        mergedCfg.roleGroup := new RoleGroupConfigSpec();
      }
      var resourceRes: ResourcesSpec;
      if mergedCfg.roleGroup.resources == null {
        resourceRes := resources;
      } else {
        var mergedResource := mergedCfg.roleGroup.resources;
        resourceRes := mergedResource;
        if mergedResource.cpu.None? && mergedResource.memory.None? {
          resourceRes := new ResourcesSpec(None, None, None);
        } else {
          if mergedResource.cpu.None? {
            resourceRes.cpu := resources.cpu;
          } else if mergedResource.cpu.value.max == 0 && mergedResource.cpu.value.min == 0 {
            resourceRes.cpu := None;
          }
          if mergedResource.memory.None? {
            resourceRes.memory := resources.memory;
          } else if mergedResource.memory.value == 0 {
            resourceRes.memory := None;
          }
        }
        if mergedResource.storage.None? {
          resourceRes.storage := resources.storage;
        }
      }
      mergedCfg.roleGroup.resources := resourceRes;
      if mergedCfg.listenerClass.None? && listenerClass != "" {
        mergedCfg.listenerClass := Some(listenerClass);
      }
    }
  }

  /** A role's default resources. */
  method GetContainerResource(role: Role) returns (spec: ResourcesSpec)
    ensures fresh(spec) && spec.Values() == RoleResources(role)
  {
    var cpuMin, cpuMax, memoryLimit, storage;
    match role {
      case NameNode =>
        cpuMin, cpuMax, memoryLimit, storage := 300, 1000, 1024 * MI, 1 * GI;
      case DataNode =>
        cpuMin, cpuMax, memoryLimit, storage := 100, 400, 512 * MI, 2 * GI;
      case JournalNode =>
        cpuMin, cpuMax, memoryLimit, storage := 100, 400, 512 * MI, 1 * GI;
    }
    spec := new ResourcesSpec(Some(Cpu(cpuMin, cpuMax)), Some(memoryLimit), Some(storage));
  }

  function RoleResources(role: Role): (r: Resources)
    ensures r.cpu.Some? && r.memory.Some? && r.storage.Some? && r.storage.value > 0
  {
    match role
    case NameNode => Resources(Some(Cpu(300, 1000)), Some(1024 * MI), Some(1 * GI))
    case DataNode => Resources(Some(Cpu(100, 400)), Some(512 * MI), Some(2 * GI))
    case JournalNode => Resources(Some(Cpu(100, 400)), Some(512 * MI), Some(1 * GI))
  }

  const FALLBACK := 10 * GI

  /** The size of a role's data volume claim. The resources are reached through an embedded pointer
      whose nil panics. Beyond it, the DataNode's builder dereferences and the other two test for
      nil and fall back. */
  method CreateDataPvcTemplate(role: Role, config: ConfigSpec) returns (size: Outcome<int>)
    ensures config.roleGroup == null ==> size.Panicked?
    ensures config.roleGroup != null ==>
              var u := config.UserResources();
              size == if u.Some? && u.value.storage.Some? then Returned(u.value.storage.value)
                      else if role.DataNode? then Panicked else Returned(FALLBACK)
  {
    if config.roleGroup == null {
      return Panicked;
    }
    var resources := config.roleGroup.resources;
    if role.DataNode? {
      if resources == null || resources.storage.None? {
        return Panicked;
      }
      size := Returned(resources.storage.value);
    } else {
      var storageSize := FALLBACK;
      if resources != null && resources.storage.Some? {
        storageSize := resources.storage.value;
      }
      size := Returned(storageSize);
    }
  }

  /** Merging a role's defaults and building the volume claim, as the role reconciler does. The
      claim has the user's size, or the role's, unless the user gives storage alone: then the
      DataNode panics, and the other roles ask for the fallback whatever the user gave. */
  method DataVolumeSize(role: Role, user: ConfigSpec) returns (size: Outcome<int>)
    modifies user, user.roleGroup, if user.roleGroup == null then null else user.roleGroup.resources
    ensures size.Panicked? <==> role.DataNode? && StorageOnly(old(user.UserResources()))
    ensures StorageOnly(old(user.UserResources())) && !role.DataNode? ==> size == Returned(10737418240)
    ensures !StorageOnly(old(user.UserResources())) ==> size == Returned(WantedStorage(role, old(user.UserResources())))
    ensures size == Returned(WantedStorage(role, old(user.UserResources()))) <==>
            var u := old(user.UserResources());
            !StorageOnly(u) || (!role.DataNode? && u.value.storage == Some(10737418240))
    ensures old(user.UserResources()).None? ==>
              size == Returned(match role case NameNode => 1073741824 case DataNode => 2147483648 case JournalNode => 1073741824)
    ensures user.listenerClass ==
            if old(user.listenerClass).None? && !role.JournalNode? then Some("cluster-internal") else old(user.listenerClass)
  {
    var spec := GetContainerResource(role);
    var defaults := new RoleNodeConfig(spec, if role.JournalNode? then "" else "cluster-internal");
    defaults.MergeDefaultConfig(user);
    size := CreateDataPvcTemplate(role, user);
  }

  /** The storage a user wants: their own, or the role's if they give none. */
  function WantedStorage(role: Role, user: Option<Resources>): (size: int)
  {
    if user.Some? && user.value.storage.Some? then user.value.storage.value else RoleResources(role).storage.value
  }
}
