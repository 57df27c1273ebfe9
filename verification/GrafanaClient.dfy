/** Grafana as the operator sees it, and the client calls the dashboard controller issues. What the network and
    the server make of a call is a parameter of the call. */
module GrafanaClient {
  import opened Wrappers
  import opened ControllerConfig

  /** A stored dashboard: the hash of the resource it was rendered from, and the folder it is in. */
  datatype Stored = Stored(content: string, folderId: int)

  /** The requests that may change Grafana. */
  datatype Write =
    | CreateFolder(title: string)
    | PostDashboard(uid: string, folderId: int)
    | DeleteDashboard(uid: string)
    | DeleteFolder(id: int)

  datatype Server = Server(dashboards: map<string, Stored>, folders: map<string, int>, nextId: int, writes: seq<Write>)

  /** Done: carried out and confirmed. Unavailable: status 503, not carried out. Failed: not carried out.
      Lost: carried out, but the caller sees an error. */
  datatype Answer = Done | Unavailable | Failed | Lost

  const NON_NAMESPACED_FOLDER := "Non-Namespaced"

  function Issued(s: Server, w: Write): Server {
    s.(writes := s.writes + [w])
  }

  function WithFolder(s: Server, title: string): Server {
    s.(folders := s.folders[title := s.nextId], nextId := s.nextId + 1)
  }

  /** Get or create. A listing that is unavailable reads as empty; a creation that is unavailable yields a
      folder without an identifier, which the controller takes for folder 0. Grafana refuses a title twice. */
  function FolderFor(s: Server, name: string, listing: Answer, creation: Answer): (Server, Option<int>) {
    if listing == Failed || listing == Lost then (s, None)
    else if listing == Done && name in s.folders then (s, Some(s.folders[name]))
    else
      var title := if name == "" then NON_NAMESPACED_FOLDER else name;
      var asked := Issued(s, CreateFolder(title));
      match creation
      case Failed => (asked, None)
      case Unavailable => (asked, Some(0))
      case Lost => (if title in s.folders then asked else WithFolder(asked, title), None)
      case Done => if title in s.folders then (asked, None) else (WithFolder(asked, title), Some(s.nextId))
  }

  /** Create or overwrite by UID. Status 503 is accepted as success although nothing was stored. */
  function Posted(s: Server, uid: string, content: string, folderId: int, answer: Answer): (Server, bool) {
    var asked := Issued(s, PostDashboard(uid, folderId));
    var stored := asked.(dashboards := asked.dashboards[uid := Stored(content, folderId)]);
    match answer
    case Done => (stored, true)
    case Unavailable => (asked, true)
    case Failed => (asked, false)
    case Lost => (stored, false)
  }

  function DashboardDeleted(s: Server, uid: string, answer: Answer): Server {
    var asked := Issued(s, DeleteDashboard(uid));
    if answer == Done || answer == Lost then asked.(dashboards := asked.dashboards - {uid}) else asked
  }

  /** Deleting a folder deletes the dashboards in it. */
  function WithoutFolder(s: Server, id: int): Server {
    if exists t :: t in s.folders && s.folders[t] == id then
      s.(folders := map t | t in s.folders && s.folders[t] != id :: s.folders[t],
         dashboards := map u | u in s.dashboards && s.dashboards[u].folderId != id :: s.dashboards[u])
    else s
  }

  function FolderDeleted(s: Server, id: int, answer: Answer): Server {
    var asked := Issued(s, DeleteFolder(id));
    if answer == Done || answer == Lost then WithoutFolder(asked, id) else asked
  }

  ghost predicate SafeToDeleteFolder(refs: seq<DashboardRef>, id: int) {
    forall r :: r in refs ==> r.folderId != id
  }

  class Client {
    var server: Server

    constructor (s: Server)
      ensures server == s
    {
      server := s;
    }

    /** The listed folder of the name, or a new one. */
    method CreateOrUpdateFolder(name: string, listing: Answer, creation: Answer) returns (folderId: Option<int>)
      modifies this
      ensures (server, folderId) == FolderFor(old(server), name, listing, creation)
      ensures
        var title := if name == "" then "Non-Namespaced" else name;
        var listed := listing == Done && name in old(server).folders;
        var asked := (listing == Done || listing == Unavailable) && !listed;
        var made := asked && (creation == Done || creation == Lost) && title !in old(server).folders;
        && folderId == (if listed then Some(old(server).folders[name])
                        else if asked && creation == Unavailable then Some(0)
                        else if made && creation == Done then Some(old(server).nextId)
                        else None)
        && server.folders == (if made then old(server).folders[title := old(server).nextId] else old(server).folders)
        && server.nextId == old(server).nextId + (if made then 1 else 0)
        && server.writes == old(server).writes + (if asked then [CreateFolder(title)] else [])
        && server.dashboards == old(server).dashboards
    {
      if listing == Failed || listing == Lost {
        return None;
      }
      var all := if listing == Done then server.folders else map[];
      if name in all {
        return Some(all[name]);
      }
      var title := name;
      if title == "" {
        title := NON_NAMESPACED_FOLDER;
      }
      var taken := title in server.folders;
      server := Issued(server, CreateFolder(title));
      if !taken && (creation == Done || creation == Lost) {
        folderId := Some(server.nextId);
        server := WithFolder(server, title);
      } else {
        folderId := None;
      }
      if creation == Unavailable {
        folderId := Some(0);
      } else if creation != Done {
        folderId := None;
      }
    }

    /** The identifier Grafana answers with is zero when the dashboard is absent or the request fails. */
    method HasDashboard(uid: string, fails: bool) returns (found: bool)
      ensures found <==> !fails && uid in server.dashboards
    {
      return !fails && uid in server.dashboards;
    }

    /** Stored when the request is carried out; reported as stored also when Grafana is unavailable. */
    method CreateOrUpdateDashboard(uid: string, content: string, folderId: int, answer: Answer) returns (ok: bool)
      modifies this
      ensures (server, ok) == Posted(old(server), uid, content, folderId, answer)
      ensures ok <==> answer == Done || answer == Unavailable
      ensures server.writes == old(server).writes + [PostDashboard(uid, folderId)]
      ensures server.folders == old(server).folders && server.nextId == old(server).nextId
      ensures server.dashboards ==
        if answer == Done || answer == Lost then old(server).dashboards[uid := Stored(content, folderId)]
        else old(server).dashboards
    {
      server := Issued(server, PostDashboard(uid, folderId));
      if answer == Done || answer == Lost {
        server := server.(dashboards := server.dashboards[uid := Stored(content, folderId)]);
      }
      ok := answer == Done || answer == Unavailable;
    }

    /** Nothing but the dashboard goes, and it goes when the request is carried out. */
    method DeleteDashboardByUID(uid: string, answer: Answer)
      modifies this
      ensures server == DashboardDeleted(old(server), uid, answer)
      ensures server.writes == old(server).writes + [DeleteDashboard(uid)]
      ensures server.folders == old(server).folders
      ensures forall u :: u in server.dashboards <==>
        u in old(server).dashboards && !(u == uid && (answer == Done || answer == Lost))
      ensures forall u :: u in server.dashboards ==> server.dashboards[u] == old(server).dashboards[u]
    {
      server := Issued(server, DeleteDashboard(uid));
      if answer == Done || answer == Lost {
        server := server.(dashboards := server.dashboards - {uid});
      }
    }

    /** The folder goes with every dashboard in it, provided it exists; nothing else goes. */
    method DeleteFolder(id: int, answer: Answer)
      modifies this
      ensures server == FolderDeleted(old(server), id, answer)
      ensures server.writes == old(server).writes + [Write.DeleteFolder(id)]
      ensures
        var gone := (answer == Done || answer == Lost) && exists t :: t in old(server).folders && old(server).folders[t] == id;
        && (forall t :: t in server.folders <==> t in old(server).folders && !(gone && old(server).folders[t] == id))
        && (forall u :: u in server.dashboards <==>
              u in old(server).dashboards && !(gone && old(server).dashboards[u].folderId == id))
      ensures forall t :: t in server.folders ==> server.folders[t] == old(server).folders[t]
      ensures forall u :: u in server.dashboards ==> server.dashboards[u] == old(server).dashboards[u]
    {
      server := Issued(server, Write.DeleteFolder(id));
      if (answer == Done || answer == Lost) && id in server.folders.Values {
        var folders, dashboards := server.folders, server.dashboards;
        server := server.(folders := map t | t in folders && folders[t] != id :: folders[t]);
        server := server.(dashboards := map u | u in dashboards && dashboards[u].folderId != id :: dashboards[u]);
      }
    }

    method SafeToDelete(dashlist: seq<DashboardRef>, id: int) returns (safe: bool)
      ensures safe <==> SafeToDeleteFolder(dashlist, id)
    {
      for i := 0 to |dashlist|
        invariant forall j | 0 <= j < i :: dashlist[j].folderId != id
      {
        if dashlist[i].folderId == id {
          return false;
        }
      }
      return true;
    }
  }
}
