/** The container-image component: on the control side it turns the parsed
    flags into a job record with an `action` and the `images` list, rejecting
    inconsistent combinations; on the worker side it builds and runs the
    matching `podman image` command. */
module ContainerImage {
  import opened Wrappers
  import opened Values
  import opened Text
  import opened Process
  import opened Components

  datatype Action = Pull | Push | Tag | List | Inspect

  /** The word stored as the job's `action` and passed to `podman image`. */
  function ActionName(a: Action): string {
    match a
    case Pull => "pull"
    case Push => "push"
    case Tag => "tag"
    case List => "list"
    case Inspect => "inspect"
  }

  const TagCountMessage: string := "Must specify exactly 2 images to tag."
  const ListImagesMessage: string := "Cannot specify images with --list."
  const NoPodmanMessage: string := "Unable to find podman binary."

  function NeedImageMessage(action: string): string {
    "Must specify exactly at least one image to " + action + "."
  }

  /** The container-image arguments declared after the common ones: five
      mutually exclusive action switches and the positional image list. */
  function ImageArguments(): (args: seq<Argument>)
    ensures |args| == 6
    ensures forall i :: 0 <= i < 5 ==> args[i].group == Some(0) && args[i].options.action == Some(StoreTrue)
    ensures [args[0].name, args[1].name, args[2].name, args[3].name, args[4].name]
         == ["--pull", "--push", "--tag", "--list", "--inspect"]
    ensures args[5].name == "images" && args[5].options.nargs == Some("*") && args[5].group == None
  {
    [ Switch("--pull", "Pull images from a registry."),
      Switch("--push", "Push images to a registry."),
      Switch("--tag", "Tag images with a new tag."),
      Switch("--list", "List all images on a host."),
      Switch("--inspect", "Inspect specific images on a host."),
      Argument("images", NoOptions.(nargs := Some("*"), help := Some(VStr("specify container images."))), None) ]
  }

  function Switch(name: string, help: string): Argument {
    Argument(name, NoOptions.(action := Some(StoreTrue), help := Some(VStr(help))), Some(0))
  }

  /** The parsed flags and positional images the server reads. */
  datatype KnownArgs = KnownArgs(pull: bool, push: bool, tag: bool, list: bool, inspect: bool, images: seq<string>)

  /** The parsed namespace as the server reads it; None when an attribute it
      reads is missing or the images are not a list of strings. */
  function ReadKnownArgs(ns: Namespace): (k: Option<KnownArgs>)
    ensures k.Some? <==>
      && (forall f :: f in ["pull", "push", "tag", "list", "inspect", "images"] ==> f in ns)
      && ns["images"].VList? && AllStrings(ns["images"].items)
    ensures k.Some? ==>
      && k.value.pull == Truthy(ns["pull"]) && k.value.push == Truthy(ns["push"])
      && k.value.tag == Truthy(ns["tag"]) && k.value.list == Truthy(ns["list"])
      && k.value.inspect == Truthy(ns["inspect"])
      && StrList(k.value.images) == ns["images"]
  {
    if "pull" in ns && "push" in ns && "tag" in ns && "list" in ns && "inspect" in ns
       && "images" in ns && ns["images"].VList? && AllStrings(ns["images"].items)
    then
      var images := Strings(ns["images"].items);
      assert StrList(images) == ns["images"];
      Some(KnownArgs(Truthy(ns["pull"]), Truthy(ns["push"]), Truthy(ns["tag"]),
                     Truthy(ns["list"]), Truthy(ns["inspect"]), images))
    else None
  }

  /** The action switch chosen, by precedence pull, push, tag, list, inspect. */
  function ChosenAction(k: KnownArgs): (a: Option<Action>)
    ensures a == Some(Pull) <==> k.pull
    ensures a == Some(Push) <==> !k.pull && k.push
    ensures a == Some(Tag) <==> !k.pull && !k.push && k.tag
    ensures a == Some(List) <==> !k.pull && !k.push && !k.tag && k.list
    ensures a == Some(Inspect) <==> !k.pull && !k.push && !k.tag && !k.list && k.inspect
    ensures a == None <==> !k.pull && !k.push && !k.tag && !k.list && !k.inspect
  {
    if k.pull then Some(Pull)
    else if k.push then Some(Push)
    else if k.tag then Some(Tag)
    else if k.list then Some(List)
    else if k.inspect then Some(Inspect)
    else None
  }

  /** The checks the server runs after recording the job, in source order:
      the message of the first that fails, or None. */
  function ValidationError(k: KnownArgs): (e: Option<string>)
    ensures k.tag && |k.images| != 2 ==> e == Some(TagCountMessage)
    ensures !(k.tag && |k.images| != 2) && (k.push || k.pull || k.inspect) && k.images == [] ==>
      ChosenAction(k).Some? && e == Some(NeedImageMessage(ActionName(ChosenAction(k).value)))
    ensures e == Some(ListImagesMessage) <==>
      !(k.tag && |k.images| != 2) && !((k.push || k.pull || k.inspect) && k.images == [])
      && k.list && k.images != []
    ensures e == None <==>
      && !(k.tag && |k.images| != 2)
      && !((k.push || k.pull || k.inspect) && k.images == [])
      && !(k.list && k.images != [])
  {
    if k.tag && |k.images| != 2 then Some(TagCountMessage)
    else if (k.push || k.pull || k.inspect) && k.images == [] then
      Some(NeedImageMessage(ActionName(ChosenAction(k).value)))
    else if k.list && k.images != [] then Some(ListImagesMessage)
    else None
  }

  /** The parser admits at most one action switch. */
  predicate AtMostOneAction(k: KnownArgs) {
    (if k.pull then 1 else 0) + (if k.push then 1 else 0) + (if k.tag then 1 else 0)
    + (if k.list then 1 else 0) + (if k.inspect then 1 else 0) <= 1
  }

  /** With at most one switch set, the server accepts exactly: tag with two
      images; push, pull or inspect with at least one; list with none; or
      no switch at all. A rejection for a missing image names the switch. */
  lemma ServerAcceptsExactly(k: KnownArgs)
    requires AtMostOneAction(k)
    ensures ValidationError(k) == None <==>
      || (k.tag && |k.images| == 2)
      || ((k.push || k.pull || k.inspect) && |k.images| >= 1)
      || (k.list && k.images == [])
      || ChosenAction(k) == None
    ensures k.pull && k.images == [] ==> ValidationError(k) == Some(NeedImageMessage("pull"))
    ensures k.push && k.images == [] ==> ValidationError(k) == Some(NeedImageMessage("push"))
    ensures k.inspect && k.images == [] ==> ValidationError(k) == Some(NeedImageMessage("inspect"))
  {
  }

  /** The job record handed over by the control side. */
  class JobData {
    var fields: map<string, Value>

    constructor (fields: map<string, Value>)
      ensures this.fields == fields
    {
      this.fields := fields;
    }
  }

  /** What the server writes into the job record: the images, and the
      chosen action when a switch was given. */
  function Recorded(fields: map<string, Value>, k: KnownArgs): (f: map<string, Value>)
    ensures "images" in f && f["images"] == StrList(k.images)
    ensures ChosenAction(k).Some? ==> "action" in f && f["action"] == VStr(ActionName(ChosenAction(k).value))
    ensures ChosenAction(k).None? ==> ("action" in f <==> "action" in fields)
    ensures ChosenAction(k).None? && "action" in fields ==> f["action"] == fields["action"]
    ensures forall key :: key != "images" && key != "action" ==>
      (key in f <==> key in fields) && (key in f ==> f[key] == fields[key])
  {
    var f := fields["images" := StrList(k.images)];
    match ChosenAction(k)
    case Some(a) => f["action" := VStr(ActionName(a))]
    case None => f
  }

  /** Lines 72-102 of the server: record the images and the action in the
      caller's record, then reject inconsistent combinations. The record is
      written before the checks, so a rejected job leaves it written too. */
  method RecordJob(k: KnownArgs, data: JobData) returns (r: Result<JobData, string>)
    modifies data
    ensures data.fields == Recorded(old(data.fields), k)
    ensures ValidationError(k).None? ==> r == Success(data)
    ensures ValidationError(k).Some? ==> r == Failure(ValidationError(k).value)
  {
    data.fields := data.fields["images" := StrList(k.images)];
    if k.pull {
      data.fields := data.fields["action" := VStr("pull")];
    } else if k.push {
      data.fields := data.fields["action" := VStr("push")];
    } else if k.tag {
      data.fields := data.fields["action" := VStr("tag")];
    } else if k.list {
      data.fields := data.fields["action" := VStr("list")];
    } else if k.inspect {
      data.fields := data.fields["action" := VStr("inspect")];
    }
    data.fields := data.fields["images" := StrList(k.images)];
    if k.tag && |k.images| != 2 {
      return Failure(TagCountMessage);
    }
    if (k.push || k.pull || k.inspect) && |k.images| == 0 {
      return Failure(NeedImageMessage(data.fields["action"].s));
    }
    if k.list && k.images != [] {
      return Failure(ListImagesMessage);
    }
    return Success(data);
  }

  /** The server as intended: declare the arguments, parse the exec
      fragments (overlaying the pre-formatted values), then record and
      validate the job. An exit of the parser and the help check abort before
      the record is touched; so does a namespace without the image list,
      whereas one that has the list but lacks a switch (which the parser
      always sets) would raise in the source only after recording the images. */
  method Server(c: ComponentBase, parse: Parse, execArray: seq<string>, data: JobData, argVars: map<string, Value>)
    returns (r: Result<JobData, string>)
    modifies c, data
    ensures c.parser == CommonArguments() + ImageArguments() && c.cacheable == old(c.cacheable)
    ensures var p := parse(CommonArguments() + ImageArguments(), SanitizedArgs(execArray));
      && (p.Failure? ==>
            && r == Failure(p.error) && data.fields == old(data.fields)
            && c.knownArgs == old(c.knownArgs) && c.unknownArgs == old(c.unknownArgs))
      && (p.Success? ==> c.unknownArgs == Some(p.value.unknown))
      && (p.Success? && HelpRequested(p.value.known) ==>
            r.Failure? && data.fields == old(data.fields) && c.knownArgs == Some(p.value.known))
      && (p.Success? && !HelpRequested(p.value.known) ==>
            var ns := Overlay(p.value.known, argVars);
            && c.knownArgs == Some(ns)
            && (ReadKnownArgs(ns).None? ==> r.Failure? && data.fields == old(data.fields))
            && (ReadKnownArgs(ns).Some? ==>
                  var k := ReadKnownArgs(ns).value;
                  && data.fields == Recorded(old(data.fields), k)
                  && (ValidationError(k).None? ==> r == Success(data))
                  && (ValidationError(k).Some? ==> r == Failure(ValidationError(k).value))))
  {
    var parsed := c.Server(ImageArguments(), parse, execArray, argVars);
    if parsed.Failure? {
      return Failure(parsed.error);
    }
    var k := ReadKnownArgs(parsed.value.known);
    if k.None? {
      return Failure("AttributeError: parsed arguments lack a container-image field");
    }
    r := RecordJob(k.value, data);
  }

  /** The server as written: it passes the exec fragments to the base
      class under the keyword `exec_array`, which the base `server` does not
      accept, so every call raises before anything is parsed or recorded. */
  function ServerAsWritten(execArray: seq<string>, argVars: map<string, Value>): (r: Result<(), string>)
    ensures r.Failure?
  {
    Failure("TypeError: server() got an unexpected keyword argument 'exec_array'")
  }

  /** A tag job with two images (`--tag img:old img:new`) passes validation
      under the intended server, yet the server as written rejects it. */
  lemma ServerAsWrittenRejectsValidJob()
    ensures var k := KnownArgs(false, false, true, false, false, ["img:old", "img:new"]);
      ValidationError(k) == None && ChosenAction(k) == Some(Tag)
      && ServerAsWritten(["--tag img:old img:new"], map[]).Failure?
  {
  }

  /** What the client returns: output, error, success and the command line. */
  datatype ClientResult = ClientResult(output: Option<string>, error: string, success: bool, command: string)

  /** A job record the client can build a command from. */
  predicate WellFormedJob(job: map<string, Value>) {
    && "action" in job && job["action"].VStr?
    && "images" in job && job["images"].VList? && AllStrings(job["images"].items)
  }

  /** The command line the client runs for a job. */
  function PodmanCommand(podman: string, job: map<string, Value>): string
    requires WellFormedJob(job)
  {
    JoinWith(" ", [podman, "image", job["action"].s, JoinWith(" ", Strings(job["images"].items))])
  }

  lemma PodmanCommandShape(podman: string, job: map<string, Value>)
    requires WellFormedJob(job)
    ensures PodmanCommand(podman, job)
         == podman + " image " + job["action"].s + " " + JoinWith(" ", Strings(job["images"].items))
         == JoinWith(" ", [podman, "image", job["action"].s]) + " " + JoinWith(" ", Strings(job["images"].items))
  {
    var action, images := job["action"].s, JoinWith(" ", Strings(job["images"].items));
    var words := [podman, "image", action, images];
    assert words[1..] == ["image", action, images] && words[1..][1..] == [action, images];
    assert [action, images][1..] == [images];
    assert JoinWith(" ", [action, images]) == action + " " + images;
    assert JoinWith(" ", words[1..]) == "image" + " " + (action + " " + images);
    var head := [podman, "image", action];
    assert head[1..] == ["image", action] && head[1..][1..] == [action];
    assert JoinWith(" ", ["image", action]) == "image" + " " + action;
    assert JoinWith(" ", head) == podman + " " + ("image" + " " + action);
    assert " image " == " " + "image" + " ";
  }

  /** `client`: look up the podman binary; without one, report the failure;
      otherwise run `<podman> image <action> <images...>` and return its
      result with the command line. A malformed job raises. */
  function Client(spawn: Invocation -> Outcome, ambient: Env, job: map<string, Value>): (r: Result<ClientResult, string>)
    ensures var lookup := RunCommand(spawn, ambient, "command -v podman");
      AllSpace(lookup.output) ==> r == Success(ClientResult(None, lookup.error, false, NoPodmanMessage))
    ensures var lookup := RunCommand(spawn, ambient, "command -v podman");
      !AllSpace(lookup.output) ==> (r.Success? <==> WellFormedJob(job))
    ensures var lookup := RunCommand(spawn, ambient, "command -v podman");
      !AllSpace(lookup.output) && WellFormedJob(job) ==>
        var command := Strip(lookup.output) + " image " + job["action"].s + " "
                       + JoinWith(" ", Strings(job["images"].items));
        var run := RunCommand(spawn, ambient, command);
        r == Success(ClientResult(Some(run.output), run.error, run.success, command))
  {
    var lookup := RunCommand(spawn, ambient, "command -v podman");
    var podman := Strip(lookup.output);
    if podman == "" then Success(ClientResult(None, lookup.error, false, NoPodmanMessage))
    else if !WellFormedJob(job) then Failure("KeyError or TypeError: malformed job")
    else
      var command := PodmanCommand(podman, job);
      PodmanCommandShape(podman, job);
      var run := RunCommand(spawn, ambient, command);
      Success(ClientResult(Some(run.output), run.error, run.success, command))
  }

  /** The shell sees exactly the words podman, image, the action and the
      images when none of them contains whitespace (with no images, the
      trailing space adds no word). */
  lemma PodmanCommandWords(podman: string, job: map<string, Value>)
    requires WellFormedJob(job) && IsToken(podman) && IsToken(job["action"].s)
    requires forall i :: 0 <= i < |job["images"].items| ==> IsToken(job["images"].items[i].s)
    ensures Split(PodmanCommand(podman, job)) == [podman, "image", job["action"].s] + Strings(job["images"].items)
  {
    var head := [podman, "image", job["action"].s];
    var images := Strings(job["images"].items);
    assert IsToken("image") by {
      assert forall i :: 0 <= i < 5 ==> !IsSpace("image"[i]);
    }
    SplitJoin(head);
    SplitJoin(images);
    SplitAtSpace(JoinWith(" ", head), ' ', JoinWith(" ", images));
    PodmanCommandShape(podman, job);
    assert PodmanCommand(podman, job) == JoinWith(" ", head) + [' '] + JoinWith(" ", images);
  }
}
