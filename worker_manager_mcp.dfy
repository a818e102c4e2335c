/** The tool bodies of the MCP agent (src/mcp/worker-manager-mcp.ts): the
    manifest built from `create_asset_upload`'s input, the D1 database that
    `init` provisions once, and the request `deploy_worker` composes. */
module WorkerManagerMcp {
  import opened Wrappers
  import opened Util
  import opened Resources
  import opened ScriptUpload

  /** The agent's persisted state. */
  datatype State = State(namespace: string, user: string)

  const InitialState := State("test", "customer-1")

  /** One element of `files_metadata`. */
  datatype FileMetadataInput = FileMetadataInput(fileName: string, fileHash: string, fileSize: int)

  function MetadataOf(file: FileMetadataInput): FileMetadata
  {
    FileMetadata(file.fileHash, file.fileSize)
  }

  /** `files[i]` is the last of the first `k` files named `name`. */
  ghost predicate LastNamed(files: seq<FileMetadataInput>, k: nat, i: int, name: string)
    requires k <= |files|
  {
    0 <= i < k && files[i].fileName == name && forall j :: i < j < k ==> files[j].fileName != name
  }

  /** `m` is the manifest of the first `k` files: its keys are exactly their
      names, and under each name sits the metadata of the last file with that
      name. */
  ghost predicate IsManifestOfPrefix(m: AssetManifest, files: seq<FileMetadataInput>, k: nat)
    requires k <= |files|
  {
    && (forall i :: 0 <= i < k ==> files[i].fileName in m)
    && (forall name :: name in m ==> exists i :: LastNamed(files, k, i, name) && m[name] == MetadataOf(files[i]))
  }

  ghost predicate IsManifestOf(m: AssetManifest, files: seq<FileMetadataInput>)
  {
    IsManifestOfPrefix(m, files, |files|)
  }

  /** One step of the fold: writing the next file's entry keeps the
      accumulator the manifest of the files seen so far. */
  lemma {:induction false} ManifestStep(m: AssetManifest, files: seq<FileMetadataInput>, k: nat)
    requires k < |files| && IsManifestOfPrefix(m, files, k)
    ensures IsManifestOfPrefix(m[files[k].fileName := MetadataOf(files[k])], files, k + 1)
  {
    var m' := m[files[k].fileName := MetadataOf(files[k])];
    forall name | name in m'
      ensures exists i :: LastNamed(files, k + 1, i, name) && m'[name] == MetadataOf(files[i])
    {
      if name == files[k].fileName {
        assert LastNamed(files, k + 1, k, name);
      } else {
        var i :| LastNamed(files, k, i, name) && m[name] == MetadataOf(files[i]);
        assert LastNamed(files, k + 1, i, name);
      }
    }
  }

  /** The `reduce` of `create_asset_upload`: one assignment into the
      accumulator per input file, in order. */
  method BuildManifest(files: seq<FileMetadataInput>) returns (manifest: AssetManifest)
    ensures IsManifestOf(manifest, files)
  {
    manifest := map[];
    for k := 0 to |files|
      invariant IsManifestOfPrefix(manifest, files, k)
    {
      ManifestStep(manifest, files, k);
      manifest := manifest[files[k].fileName := MetadataOf(files[k])];
    }
  }

  /** A name given once gets exactly the metadata it was given with. */
  lemma UniqueNameKept(m: AssetManifest, files: seq<FileMetadataInput>, i: nat)
    requires IsManifestOf(m, files)
    requires i < |files| && forall j :: 0 <= j < |files| && j != i ==> files[j].fileName != files[i].fileName
    ensures files[i].fileName in m && m[files[i].fileName] == FileMetadata(files[i].fileHash, files[i].fileSize)
  {
    var name := files[i].fileName;
    var i' :| LastNamed(files, |files|, i', name) && m[name] == MetadataOf(files[i']);
  }

  /** The manifest of a list is determined by the list: two manifests of the
      same files are the same map. */
  lemma ManifestUnique(m: AssetManifest, m': AssetManifest, files: seq<FileMetadataInput>)
    requires IsManifestOf(m, files) && IsManifestOf(m', files)
    ensures m == m'
  {
    forall name | name in m
      ensures name in m' && m[name] == m'[name]
    {
      var i :| LastNamed(files, |files|, i, name) && m[name] == MetadataOf(files[i]);
      assert files[i].fileName in m';
      var i' :| LastNamed(files, |files|, i', name) && m'[name] == MetadataOf(files[i']);
      assert i == i';
    }
    forall name | name in m'
      ensures name in m
    {
      var i' :| LastNamed(files, |files|, i', name) && m'[name] == MetadataOf(files[i']);
      assert files[i'].fileName in m;
    }
  }

  /** The `create_asset_upload` tool: the upload is negotiated for the agent's
      namespace with the user's name as the worker name, over the manifest of
      the input; its `upload_info` is the negotiation's reply through
      `required`. */
  method CreateAssetUploadTool(state: State, filesMetadata: seq<FileMetadataInput>, reply: Result<JsObject, Error>)
    returns (negotiation: AssetUploadCall, uploadInfo: Result<JsObject, Error>)
    ensures negotiation.namespace == state.namespace && negotiation.workerName == state.user
    ensures IsManifestOf(negotiation.manifest, filesMetadata)
    ensures uploadInfo == RequireReply(reply)
  {
    var manifest := BuildManifest(filesMetadata);
    var created := CreateAssetsUpload(state.namespace, state.user, manifest, reply);
    negotiation, uploadInfo := created.0, created.1;
  }

  /** The `worker` argument of `deploy_worker`. */
  datatype WorkerInput = WorkerInput(name: string, mainFileName: string, files: seq<SubmittedFile>, assetsToken: string)

  /** The `deploy_worker` tool with the database `d1` that `init` obtained:
      the request it sends and the `version` it answers with (the reply's
      `etag`), or the error it throws. */
  function DeployWorkerTool(state: State, d1: JsObject, worker: WorkerInput, reply: Result<JsObject, Error>)
    : (out: (ScriptUpdate, Result<JsValue, Error>))
    ensures out.0.namespace == state.namespace && out.0.workerName == state.user
    ensures out.0.mainModule == worker.mainFileName
    ensures out.0.files == FilesByName(DecodeFiles(worker.files))
    ensures out.0.settings.assetsJwt == Some(worker.assetsToken)
    ensures out.0.settings.bindings == [AssetsBinding("ASSETS"), D1Binding("SQLITE", Get(d1, "uuid"))]
    ensures out.0.settings.tags == ["user:" + state.user]
    ensures out.1.Success? <==> reply.Success? && AllDefined(reply.value)
    ensures out.1.Success? ==> out.1.value == Get(reply.value, "etag")
    ensures reply.Failure? ==> out.1 == Failure(reply.error)
  {
    var script := WorkerScript(worker.mainFileName, DecodeFiles(worker.files));
    var deployed := DeployWorker(state.namespace, state.user, script,
                                 PublishSettings(state.user, Some(worker.assetsToken), d1), reply);
    (deployed.0, if deployed.1.Success? then Success(Get(deployed.1.value, "etag")) else Failure(deployed.1.error))
  }

  /** The name the caller gives the worker plays no part: the deployed
      worker is always named after the user. */
  lemma WorkerNameIgnored(state: State, d1: JsObject, worker: WorkerInput, name: string, reply: Result<JsObject, Error>)
    ensures DeployWorkerTool(state, d1, worker.(name := name), reply) == DeployWorkerTool(state, d1, worker, reply)
  {
  }

  /** The agent: its state, the tools registered so far, and the database
      `init` captured for the deploy tool. */
  class WorkerManagerMcp {
    var state: State
    var tools: seq<string>
    var d1: Option<JsObject>

    /** The deploy tool is registered exactly when a database was captured. */
    predicate Valid()
      reads this
    {
      ("deploy_worker" in tools) == d1.Some?
    }

    constructor ()
      ensures state == InitialState && tools == [] && d1 == None
      ensures Valid()
    {
      state := InitialState;
      tools := [];
      d1 := None;
    }

    /** `init`: registers `create_asset_upload`, gets or creates the user's
        database (no location hint) exactly once, and registers
        `deploy_worker` only if that succeeded; a failure escapes `init`. */
    method Init(account: D1Account) returns (r: Result<JsObject, Error>)
      requires tools == []
      modifies this, account
      ensures var out := GetOrCreate(old(account.State()), old(state.user), None);
              && r == out.0 && account.State() == out.1 && account.log == old(account.log) + out.2
      ensures state == old(state)
      ensures r.Success? ==> tools == ["create_asset_upload", "deploy_worker"] && d1 == Some(r.value)
      ensures r.Failure? ==> tools == ["create_asset_upload"] && d1 == old(d1)
      ensures old(d1) == None ==> Valid()
    {
      tools := tools + ["create_asset_upload"];
      r := GetOrCreateD1(account, state.user, None);
      if r.Failure? {
        return;
      }
      d1 := Some(r.value);
      tools := tools + ["deploy_worker"];
    }

    /** A `deploy_worker` call: it binds the database captured by `init`,
        the same one on every call, and changes nothing in the agent. */
    method CallDeployWorker(worker: WorkerInput, reply: Result<JsObject, Error>)
      returns (update: ScriptUpdate, version: Result<JsValue, Error>)
      requires Valid() && "deploy_worker" in tools
      ensures d1.Some? && (update, version) == DeployWorkerTool(state, d1.value, worker, reply)
      ensures update.settings.bindings[1] == D1Binding("SQLITE", Get(d1.value, "uuid"))
    {
      var deployed := DeployWorkerTool(state, d1.value, worker, reply);
      update, version := deployed.0, deployed.1;
    }
  }
}
