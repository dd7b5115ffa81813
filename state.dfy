/**
 * The launcher's `Store` (state.py): the catalogue of applications, runtimes
 * and servers merged from manifests, the container-settings and manifest-list
 * settings that merging maintains, and the list of running item ids.
 */
module State {
  import opened Wrappers
  import opened Catalogue
  import RunningList

  /** The source of the store's own snapshot manifest, never a remote subscription. */
  const LocalManifestUrl: string := "local://manifests.xml"

  /** The urls a manifest list holds, whatever their order and repetition. */
  ghost function Members(list: seq<string>): set<string>
  {
    set u | u in list
  }

  /**
   * `uList.push`: afterwards `url` is a member and nothing else is added.
   * Whether a present url is duplicated is not stated.
   */
  function Push(list: seq<string>, url: string): (r: seq<string>)
    ensures url in r
    ensures Members(r) == Members(list) + {url}
  {
    if url in list then list else list + [url]
  }

  /** The error `list.remove` raises for an id that is not in the list. */
  datatype RemoveError = ValueError(id: string)

  class Store {
    var manifestNames: map<string, string>
    var applications: map<string, Entity>
    var runtimes: map<string, Entity>
    var servers: map<string, Server>
    /** The `containerSettings` setting. */
    var containerSettings: map<string, ContainerSettings>
    /** The `manifestList` setting: the known remote manifest urls. */
    var manifestList: seq<string>
    var running: seq<string>

    /**
     * A store with an empty catalogue. The empty `containerSettings` and
     * `manifestList` are the values a first-run `load` seeds.
     */
    constructor ()
      ensures manifestNames == map[] && manifestList == [] && running == []
      ensures applications == map[] && runtimes == map[] && servers == map[]
      ensures containerSettings == map[]
      ensures SettingsCover(applications, runtimes, containerSettings)
    {
      manifestNames := map[];
      applications := map[];
      runtimes := map[];
      servers := map[];
      containerSettings := map[];
      manifestList := [];
      running := [];
    }

    /**
     * `loadManifest(url, data)` once `data` has been parsed into `m`: merge the
     * three dictionaries last-writer-wins, give every catalogue entry default
     * container settings, and record a remote manifest's url and name.
     */
    method LoadManifest(url: string, m: Manifest)
      modifies this
      ensures applications == old(applications) + m.applications
      ensures runtimes == old(runtimes) + m.runtimes
      ensures servers == old(servers) + m.servers
      ensures containerSettings == WithDefaults(old(containerSettings), IdsOf(applications) + IdsOf(runtimes))
      ensures SettingsCover(applications, runtimes, containerSettings)
      ensures m.source == LocalManifestUrl ==>
                manifestNames == old(manifestNames) && manifestList == old(manifestList)
      ensures m.source != LocalManifestUrl ==>
                && manifestNames == old(manifestNames)[url := m.name]
                && url in manifestList
                && Members(manifestList) == Members(old(manifestList)) + {url}
      ensures running == old(running)
    {
      applications := applications + m.applications;
      runtimes := runtimes + m.runtimes;
      servers := servers + m.servers;
      FillContainerDefaults();
      ghost var settings := containerSettings;
      RecordSource(url, m);
      assert containerSettings == settings;
    }

    /**
     * The last step of `loadManifest`: a remote manifest's url is recorded
     * with its name and pushed onto the manifest list; the local snapshot is not.
     */
    method RecordSource(url: string, m: Manifest)
      modifies this`manifestNames, this`manifestList
      ensures m.source == LocalManifestUrl ==>
                manifestNames == old(manifestNames) && manifestList == old(manifestList)
      ensures m.source != LocalManifestUrl ==>
                && manifestNames == old(manifestNames)[url := m.name]
                && url in manifestList
                && Members(manifestList) == Members(old(manifestList)) + {url}
    {
      if m.source != LocalManifestUrl {
        manifestNames := manifestNames[url := m.name];
        manifestList := Push(manifestList, url);
      }
    }

    /**
     * The two loops of `loadManifest` that give every application and every
     * runtime default container settings, keeping existing entries.
     */
    method FillContainerDefaults()
      modifies this`containerSettings
      ensures containerSettings == WithDefaults(old(containerSettings), IdsOf(applications) + IdsOf(runtimes))
      ensures SettingsCover(applications, runtimes, containerSettings)
    {
      var settings := AddMissingDefaults(containerSettings, applications);
      settings := AddMissingDefaults(settings, runtimes);
      DefaultsComplete(containerSettings, applications, runtimes);
      containerSettings := settings;
    }

    /** `resolveDownload(id)`: the dependency chain of `id`, deepest runtime first. */
    function ResolveDownload(id: string): (r: seq<Entity>)
      reads this
      requires ChainEnds(applications, runtimes, id)
      ensures r == [] <==> id !in applications && id !in runtimes
      ensures id in applications ==> r != [] && r[|r| - 1] == applications[id]
      ensures id !in applications && id in runtimes ==> r != [] && r[|r| - 1] == runtimes[id]
      ensures r != [] ==> IsInstallChain(applications, runtimes, id, r)
    {
      Resolve(applications, runtimes, id)
    }

    /** `getTools`: the applications whose type is "mod". */
    function GetTools(): (r: map<string, Entity>)
      reads this
      ensures forall k :: k in r <==> k in applications && applications[k].kind == ToolType
      ensures forall k :: k in r ==> r[k] == applications[k]
    {
      OfType(applications, ToolType)
    }

    /** `getClients`: the applications whose type is "client". */
    function GetClients(): (r: map<string, Entity>)
      reads this
      ensures forall k :: k in r <==> k in applications && applications[k].kind == ClientType
      ensures forall k :: k in r ==> r[k] == applications[k]
    {
      OfType(applications, ClientType)
    }

    /** `addRunning(id)`: append `id` to the running list. */
    method AddRunning(id: string)
      modifies this`running
      ensures running == old(running) + [id]
    {
      running := running + [id];
    }

    /** `removeRunning(id)`: remove the first occurrence of `id`; raises when absent. */
    method RemoveRunning(id: string) returns (outcome: Outcome<RemoveError>)
      modifies this`running
      ensures outcome.Pass? <==> id in old(running)
      ensures outcome.Pass? ==> running == RunningList.RemoveFirst(old(running), id)
      ensures outcome.Fail? ==> running == old(running) && outcome.error == ValueError(id)
    {
      if id in running {
        running := RunningList.RemoveFirst(running, id);
        outcome := Pass;
      } else {
        outcome := Fail(ValueError(id));
      }
    }
  }

  /**
   * Two merges sharing an id: the later manifest's entry wins, and the first
   * remote url stays recorded.
   */
  method MergeTwice(m1: Manifest, m2: Manifest, id: string) returns (s: Store)
    requires id in m1.applications && id in m2.applications
    requires m1.source != LocalManifestUrl
    ensures id in s.applications && s.applications[id] == m2.applications[id]
    ensures m1.source in s.manifestList
  {
    s := new Store();
    s.LoadManifest(m1.source, m1);
    s.LoadManifest(m2.source, m2);
  }

  /** Add followed by remove of the same id leaves the multiset of running ids unchanged. */
  method AddThenRemoveRunning(s: Store, id: string) returns (outcome: Outcome<RemoveError>)
    modifies s`running
    ensures outcome == Pass
    ensures multiset(s.running) == multiset(old(s.running))
  {
    s.AddRunning(id);
    outcome := s.RemoveRunning(id);
    RunningList.AddThenRemove(old(s.running), id);
  }
}
