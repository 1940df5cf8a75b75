/**
 * The externally visible actions of the server manager, in the order it
 * issues them. File system, network and process calls are not executed by
 * the model; an operation returns the trace of calls it makes, and the
 * outcome of each call is an input to the operation.
 */
module IoEffects {

  datatype Effect =
    | OpenForWrite(path: string)          // fs.createWriteStream: creates or truncates the file
    | HttpGet(url: string)                // https.get
    | Unlink(path: string)                // fs.unlink
    | MakeDir(path: string)               // fs.mkdirSync(..., {recursive: true})
    | Chmod(path: string, mode: int)      // fs.chmodSync
    | Spawn(path: string, args: seq<string>)  // child_process.spawn
    | Wait(ms: int)                       // setTimeout
    | WriteFile(path: string, contents: string)  // fs.writeFileSync (whole-file overwrite)
    | Notify(message: string, actions: seq<string>)  // window.showInformationMessage
    | ShowError(message: string)          // window.showErrorMessage
    | RunCommand(command: string)         // commands.executeCommand

  /** The URLs requested, in order. */
  function Gets(effects: seq<Effect>): (urls: seq<string>)
    ensures |urls| <= |effects|
    ensures forall u :: u in urls <==> HttpGet(u) in effects
  {
    if effects == [] then []
    else
      (if effects[0].HttpGet? then [effects[0].url] else []) + Gets(effects[1..])
  }

  lemma {:induction false} GetsAppend(a: seq<Effect>, b: seq<Effect>)
    ensures Gets(a + b) == Gets(a) + Gets(b)
    decreases |a|
  {
    if a != [] {
      assert (a + b)[0] == a[0] && (a + b)[1..] == a[1..] + b;
      GetsAppend(a[1..], b);
    } else {
      assert a + b == b;
    }
  }

  /** Only the effects of fetching and installing the binary: no process, wait, artifact or UI. */
  predicate InstallEffects(effects: seq<Effect>) {
    forall k :: 0 <= k < |effects| ==>
      !effects[k].Spawn? && !effects[k].Wait? && !effects[k].WriteFile?
      && !effects[k].Notify? && !effects[k].ShowError? && !effects[k].RunCommand?
  }

  /** No effect of the trace touches the network. */
  predicate Offline(effects: seq<Effect>) {
    forall k :: 0 <= k < |effects| ==> !effects[k].HttpGet?
  }

  lemma OfflineIffNoGets(effects: seq<Effect>)
    ensures Offline(effects) <==> Gets(effects) == []
  {
    if !Offline(effects) {
      var k :| 0 <= k < |effects| && effects[k].HttpGet?;
      assert HttpGet(effects[k].url) in effects;
    }
  }
}
