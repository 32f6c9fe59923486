/** The `new` command of src/commands/new.ts: choosing between the interactive
    and the non-interactive flow, the questions put to the user, how answers
    and flags combine, creating the AsyncAPI file without overwriting content,
    and when Studio is started on it. Flags, the TTY status, the list of
    examples, the user's replies and the file system are inputs. */
module NewCommand {
  import opened Base
  import StudioStart

  const DefaultFileName: string := "asyncapi.yaml"
  const DefaultTemplate: string := "default-example.yaml"
  const YamlSuffix: string := ".yaml"

  /** The command's flags; a flag not given is `None` (`no-tty` absent is false). */
  datatype NewFlags = NewFlags(
    fileName: Option<string>,
    example: Option<string>,
    studio: Option<bool>,
    port: Option<int>,
    noTty: bool)

  /** JavaScript truthiness of an optional string: present and non-empty. */
  predicate Truthy(v: Option<string>)
  {
    v.Some? && v.value != ""
  }

  /** `v || d` for an optional string. */
  function OrDefault(v: Option<string>, d: string): (r: string)
    ensures Truthy(v) ==> r == v.value
    ensures !Truthy(v) ==> r == d
  {
    if Truthy(v) then v.value else d
  }

  /** The interactive flow runs iff `--no-tty` is not set and stdout is a TTY. */
  predicate IsInteractive(flags: NewFlags, isTTY: bool)
  {
    !flags.noTty && isTTY
  }

  /** The name written to disk: a name with a `.` anywhere is kept, any other
      gets the `.yaml` extension. */
  function TargetName(fileName: string): (r: string)
    ensures fileName <= r
    ensures '.' in r
  {
    if '.' in fileName then fileName else fileName + YamlSuffix
  }

  /** The written name always extends the given one, always has a `.`, is the
      given one exactly when that has a `.`, and adjusting twice changes
      nothing more. */
  lemma {:induction false} TargetNameProperties(fileName: string)
    ensures fileName <= TargetName(fileName)
    ensures '.' in TargetName(fileName)
    ensures TargetName(fileName) == fileName <==> '.' in fileName
    ensures '.' !in fileName ==> TargetName(fileName) == fileName + ".yaml"
    ensures TargetName(TargetName(fileName)) == TargetName(fileName)
  {
    var t := TargetName(fileName);
    if '.' !in fileName {
      assert t[|fileName|] == '.';
      assert |t| != |fileName|;
    }
  }

  datatype CreateStatus =
    | Created(path: string)
    | AlreadyExists(path: string)
    /** Reading the template failed, so the command throws before writing. */
    | TemplateNotFound(template: string)

  datatype CreateOutcome = CreateOutcome(status: CreateStatus, files: map<string, string>)

  /** `createAsyncapiFile`. `assets` maps each bundled example's name to its
      text; `files` is the working directory. A target that is missing (or
      unreadable) or empty is written; one with content is left alone. */
  function CreateAsyncapiFile(files: map<string, string>, assets: map<string, string>,
                              fileName: string, template: string): (r: CreateOutcome)
    ensures r.status.Created? <==>
              template in assets && (TargetName(fileName) !in files || files[TargetName(fileName)] == "")
    ensures r.status.AlreadyExists? <==>
              template in assets && TargetName(fileName) in files && files[TargetName(fileName)] != ""
    ensures r.status.TemplateNotFound? <==> template !in assets
    ensures !r.status.Created? ==> r.files == files
    ensures r.status.Created? ==>
              r.status.path == TargetName(fileName)
              && TargetName(fileName) in r.files && r.files[TargetName(fileName)] == assets[template]
    ensures r.status.AlreadyExists? ==> r.status.path == TargetName(fileName)
    ensures forall p :: p != TargetName(fileName) ==> (p in r.files <==> p in files)
    ensures forall p :: p != TargetName(fileName) && p in files ==> r.files[p] == files[p]
  {
    if template !in assets then CreateOutcome(TemplateNotFound(template), files)
    else
      var target := TargetName(fileName);
      if target in files && files[target] != "" then CreateOutcome(AlreadyExists(target), files)
      else CreateOutcome(Created(target), files[target := assets[template]])
  }

  /** Running the creation again on its own result leaves the disk as it is. */
  lemma {:induction false} CreateIsStable(files: map<string, string>, assets: map<string, string>, fileName: string, template: string)
    ensures var once := CreateAsyncapiFile(files, assets, fileName, template).files;
            CreateAsyncapiFile(once, assets, fileName, template).files == once
  {
    var once := CreateAsyncapiFile(files, assets, fileName, template).files;
    var target := TargetName(fileName);
    if template in assets && (target !in files || files[target] == "") {
      assert once == files[target := assets[template]];
      if assets[template] == "" {
        assert once[target := assets[template]] == once;
      }
    }
  }

  /** What happens with Studio once the file exists. */
  datatype StudioLaunch =
    | NoStudio
    | LaunchStudio(options: StudioStart.StartOptions)
    | WarnNotInteractive

  /** Studio is always started on the name as typed, never the adjusted one. */
  function StudioOptions(fileName: string, port: Option<int>): StudioStart.StartOptions
  {
    StudioStart.StartOptions(fileName, port, None, None)
  }

  /** The file to create, the template to copy, and the Studio decision. */
  datatype Plan = Plan(fileName: string, template: string, studio: StudioLaunch)

  /** The non-interactive branch of `run`. */
  function RunNonInteractive(flags: NewFlags, isTTY: bool): (p: Plan)
    ensures p.fileName == (if Truthy(flags.fileName) then flags.fileName.value else DefaultFileName)
    ensures p.template == (if Truthy(flags.example) then flags.example.value else DefaultTemplate)
    ensures p.studio.LaunchStudio? <==> flags.studio == Some(true) && isTTY
    ensures p.studio.WarnNotInteractive? <==> flags.studio == Some(true) && !isTTY
    ensures p.studio.LaunchStudio? ==> p.studio.options == StudioOptions(p.fileName, flags.port)
  {
    var fileName := OrDefault(flags.fileName, DefaultFileName);
    var template := OrDefault(flags.example, DefaultTemplate);
    var studio :=
      if flags.studio == Some(true) then (if isTTY then LaunchStudio(StudioOptions(fileName, flags.port)) else WarnNotInteractive)
      else NoStudio;
    Plan(fileName, template, studio)
  }

  /** The prompts `runInteractive` may put, in the order it pushes them. */
  datatype Question = AskFileName | AskUseExample | AskTemplate(choices: seq<string>) | AskStudio

  /** What the user would answer to each prompt if it were put. */
  datatype Replies = Replies(filename: string, useExample: bool, template: string, studio: bool)

  /** The answers object: a key is present only for a prompt that was put. */
  datatype Answers = Answers(
    filename: Option<string>,
    useExample: Option<bool>,
    selectedTemplate: Option<string>,
    studio: Option<bool>)

  predicate AsksTemplate(questions: seq<Question>)
  {
    exists i :: 0 <= i < |questions| && questions[i].AskTemplate?
  }

  /** The prompt: the template list has a `when` that puts it only after a
      "yes" to the use-example question. */
  function Prompt(questions: seq<Question>, replies: Replies): (a: Answers)
    ensures a.filename.Some? <==> AskFileName in questions
    ensures a.useExample.Some? <==> AskUseExample in questions
    ensures a.studio.Some? <==> AskStudio in questions
    ensures a.selectedTemplate.Some? <==> AsksTemplate(questions) && a.useExample == Some(true)
    ensures a.filename.Some? ==> a.filename.value == replies.filename
    ensures a.useExample.Some? ==> a.useExample.value == replies.useExample
    ensures a.studio.Some? ==> a.studio.value == replies.studio
    ensures a.selectedTemplate.Some? ==> a.selectedTemplate.value == replies.template
  {
    var useExample := if AskUseExample in questions then Some(replies.useExample) else None;
    Answers(
      if AskFileName in questions then Some(replies.filename) else None,
      useExample,
      if AsksTemplate(questions) && useExample == Some(true) then Some(replies.template) else None,
      if AskStudio in questions then Some(replies.studio) else None)
  }

  /** What the interactive flow promises: which prompts are put, how each
      answer fills only what the flags left unset, and when Studio starts. */
  ghost predicate InteractivePlanned(flags: NewFlags, examples: seq<string>, replies: Replies,
                                     questions: seq<Question>, plan: Plan)
  {
    && (AskFileName in questions <==> !Truthy(flags.fileName))
    && (AskUseExample in questions <==> !Truthy(flags.example) && |examples| > 0)
    && (AskTemplate(examples) in questions <==> !Truthy(flags.example) && |examples| > 0)
    && (AsksTemplate(questions) <==> !Truthy(flags.example) && |examples| > 0)
    && (AskStudio in questions <==> flags.studio == None)
    && plan.fileName == (if Truthy(flags.fileName) then flags.fileName.value
                         else if replies.filename != "" then replies.filename
                         else DefaultFileName)
    && plan.template == (if Truthy(flags.example) then flags.example.value
                         else if |examples| > 0 && replies.useExample && replies.template != "" then replies.template
                         else DefaultTemplate)
    && (plan.studio == if flags.studio == Some(true) || (flags.studio == None && replies.studio)
                       then LaunchStudio(StudioOptions(plan.fileName, flags.port))
                       else NoStudio)
  }

  /** `runInteractive`, which reassigns its `let` variables and pushes its questions. */
  method RunInteractive(flags: NewFlags, examples: seq<string>, replies: Replies)
    returns (questions: seq<Question>, plan: Plan)
    ensures InteractivePlanned(flags, examples, replies, questions, plan)
  {
    var fileName := flags.fileName;
    var selectedTemplate := flags.example;
    var openStudio := flags.studio;
    questions := [];
    if !Truthy(fileName) {
      questions := questions + [AskFileName];
    }
    if !Truthy(selectedTemplate) && |examples| > 0 {
      questions := questions + [AskUseExample, AskTemplate(examples)];
    }
    if openStudio == None {
      questions := questions + [AskStudio];
    }
    if |questions| > 0 {
      var answers := Prompt(questions, replies);
      if !Truthy(fileName) {
        fileName := answers.filename;
      }
      if !Truthy(selectedTemplate) {
        selectedTemplate := answers.selectedTemplate;
      }
      if openStudio == None {
        openStudio := answers.studio;
      }
    }
    var name := OrDefault(fileName, DefaultFileName);
    var template := OrDefault(selectedTemplate, DefaultTemplate);
    var studio := if openStudio == Some(true) then LaunchStudio(StudioOptions(name, flags.port)) else NoStudio;
    plan := Plan(name, template, studio);
  }

  datatype RunResult = RunResult(
    questions: seq<Question>,
    plan: Plan,
    created: CreateOutcome,
    studio: StudioLaunch)

  /** `run`: pick the flow, create the file, then start Studio (or warn). A
      missing template throws, so nothing after the creation happens. */
  method Run(flags: NewFlags, isTTY: bool, examples: seq<string>, replies: Replies,
             assets: map<string, string>, files: map<string, string>) returns (r: RunResult)
    ensures IsInteractive(flags, isTTY) ==> InteractivePlanned(flags, examples, replies, r.questions, r.plan)
    ensures !IsInteractive(flags, isTTY) ==> r.questions == [] && r.plan == RunNonInteractive(flags, isTTY)
    ensures r.created == CreateAsyncapiFile(files, assets, r.plan.fileName, r.plan.template)
    ensures r.studio == if r.created.status.TemplateNotFound? then NoStudio else r.plan.studio
  {
    var questions: seq<Question>, plan: Plan;
    if IsInteractive(flags, isTTY) {
      questions, plan := RunInteractive(flags, examples, replies);
    } else {
      questions, plan := [], RunNonInteractive(flags, isTTY);
    }
    var created := CreateAsyncapiFile(files, assets, plan.fileName, plan.template);
    var studio := if created.status.TemplateNotFound? then NoStudio else plan.studio;
    r := RunResult(questions, plan, created, studio);
  }

  /** Without name or example flags, the non-interactive flow creates
      `asyncapi.yaml` from `default-example.yaml`. */
  lemma {:induction false} NonInteractiveDefaults(flags: NewFlags, isTTY: bool)
    requires flags.fileName == None && flags.example == None
    ensures RunNonInteractive(flags, isTTY).fileName == DefaultFileName
    ensures RunNonInteractive(flags, isTTY).template == DefaultTemplate
    ensures TargetName(RunNonInteractive(flags, isTTY).fileName) == DefaultFileName
  {
    assert DefaultFileName[8] == '.';
  }

  /** Studio is started on the name as typed: for a name without a `.` the
      command creates `<name>.yaml` in a directory holding neither name, yet
      the Studio it starts on `<name>` stops at its file check. */
  lemma {:induction false} StudioMissesAdjustedFile(flags: NewFlags, files: map<string, string>, assets: map<string, string>)
    requires flags.noTty && flags.studio == Some(true)
    requires Truthy(flags.fileName) && '.' !in flags.fileName.value
    requires flags.fileName.value !in files && flags.fileName.value + ".yaml" !in files
    requires OrDefault(flags.example, DefaultTemplate) in assets
    ensures var plan := RunNonInteractive(flags, true);
            var created := CreateAsyncapiFile(files, assets, plan.fileName, plan.template);
            && created.status == Created(flags.fileName.value + ".yaml")
            && plan.studio.LaunchStudio?
            && StudioStart.Start(plan.studio.options, created.files.Keys)
               == Failure(StudioStart.SpecificationFileNotFound(flags.fileName.value))
  {
    var name := flags.fileName.value;
    TargetNameProperties(name);
    var plan := RunNonInteractive(flags, true);
    var created := CreateAsyncapiFile(files, assets, plan.fileName, plan.template);
    assert name !in created.files.Keys;
  }
}
