/**
 * Deal creation for LinkedIn posts, services/hubspotDealsService.js: the
 * choice of a deal stage, the duplicate check, and the validation and
 * construction of a new deal. The CRM's answers are inputs.
 */
module HubSpotDealsService {
  import opened Wrappers
  import opened Text

  /** The pipeline used when `HUBSPOT_PIPELINE_ID` is not set. */
  const DefaultPipelineId := "811215668"

  /** The environment: `HUBSPOT_PIPELINE_ID` and `HUBSPOT_DEAL_STAGE_ID`, "" when unset. */
  datatype Config = Config(pipelineEnv: string, stageEnv: string)

  function PipelineId(cfg: Config): (id: string)
    ensures cfg.pipelineEnv != "" ==> id == cfg.pipelineEnv
    ensures cfg.pipelineEnv == "" ==> id == DefaultPipelineId
  {
    if cfg.pipelineEnv != "" then cfg.pipelineEnv else DefaultPipelineId
  }

  /** The default pipeline id passes the numeric check. */
  lemma DefaultPipelineIsNumeric()
    ensures IsDigits(DefaultPipelineId)
  {
  }

  datatype Stage = Stage(id: string)

  /** A deal pipeline; `stages` is absent when the record has none. */
  datatype Pipeline = Pipeline(id: string, stages: Option<seq<Stage>>)

  /**
   * `getPipelinesAndStages`: the listed pipelines; a missing `results` or
   * a failed request gives the empty list.
   */
  function PipelinesAndStages(response: Result<Option<seq<Pipeline>>, string>): (ps: seq<Pipeline>)
    ensures response.Ok? && response.value.Some? ==> ps == response.value.value
    ensures response.Err? || response.value.None? ==> ps == []
  {
    match response
    case Err(_) => []
    case Ok(None) => []
    case Ok(Some(results)) => results
  }

  /** The first pipeline with this id. */
  function FindPipeline(pipelines: seq<Pipeline>, pipelineId: string): (r: Option<nat>)
    ensures r.Some? ==>
      && r.value < |pipelines| && pipelines[r.value].id == pipelineId
      && forall j :: 0 <= j < r.value ==> pipelines[j].id != pipelineId
    ensures r.None? ==> forall j :: 0 <= j < |pipelines| ==> pipelines[j].id != pipelineId
    decreases |pipelines|
  {
    if pipelines == [] then None
    else if pipelines[0].id == pipelineId then Some(0)
    else match FindPipeline(pipelines[1..], pipelineId)
      case None => None
      case Some(i) => Some(i + 1)
  }

  /**
   * `getValidStageId`: the first stage of the requested pipeline, or of
   * the first pipeline when none is requested (`pipelineId` ""), and null
   * when there are no pipelines, the id is not numeric, no pipeline has
   * it, or the pipeline has no stages.
   */
  function ValidStageId(pipelineId: string, pipelines: seq<Pipeline>): (r: Option<string>)
    ensures pipelines == [] ==> r.None?
    ensures pipelineId != "" && !IsDigits(pipelineId) ==> r.None?
    ensures pipelineId != "" && FindPipeline(pipelines, pipelineId).None? ==> r.None?
    ensures r.Some? ==>
      var target := if pipelineId == "" then 0 else FindPipeline(pipelines, pipelineId).value;
      && target < |pipelines|
      && (pipelineId != "" ==> pipelines[target].id == pipelineId)
      && pipelines[target].stages.Some? && pipelines[target].stages.value != []
      && r.value == pipelines[target].stages.value[0].id
  {
    if pipelines == [] then None
    else
      var target :=
        if pipelineId == "" then Some(pipelines[0])
        else if !IsDigits(pipelineId) then None
        else match FindPipeline(pipelines, pipelineId)
          case None => None
          case Some(i) => Some(pipelines[i]);
      match target
      case None => None
      case Some(p) =>
        if p.stages.None? || p.stages.value == [] then None else Some(p.stages.value[0].id)
  }

  /** The stage is found whenever the selected pipeline has stages: the guards above are the only ways to get null. */
  lemma StageFoundWhenPipelineHasStages(pipelineId: string, pipelines: seq<Pipeline>, i: nat)
    requires i < |pipelines| && pipelines[i].stages.Some? && pipelines[i].stages.value != []
    requires pipelineId == "" ==> i == 0
    requires pipelineId != "" ==> IsDigits(pipelineId) && FindPipeline(pipelines, pipelineId) == Some(i)
    ensures ValidStageId(pipelineId, pipelines) == Some(pipelines[i].stages.value[0].id)
  {
  }

  /** The answer of the deal search: the results when listed, or a failed request. */
  datatype SearchAnswer = Listed(results: Option<seq<string>>) | SearchFailed(status: Option<int>)

  /** The answer of `checkDuplicateDeal`, and whether it sent a search at all. */
  datatype DuplicateCheck = DuplicateCheck(duplicate: bool, searched: bool)

  /**
   * `checkDuplicateDeal`: an empty link is not a duplicate and asks
   * nothing; otherwise a duplicate exactly when the search listed a
   * result. Every failure, 404 and 400 or not, counts as no duplicate.
   */
  function CheckDuplicateDeal(postLink: string, search: SearchAnswer): (r: DuplicateCheck)
    ensures r.searched <==> postLink != ""
    ensures r.duplicate <==> postLink != "" && search.Listed? && search.results.Some? && |search.results.value| > 0
  {
    if postLink == "" then DuplicateCheck(false, false)
    else match search
      case SearchFailed(_) => DuplicateCheck(false, true)
      case Listed(results) => DuplicateCheck(results.Some? && |results.value| > 0, true)
  }

  /** The post as scraped, "" for a missing field. */
  datatype Post = Post(url: string, text: string, author: string, profileUrl: string, createdAt: string)

  const MaxPostText := 1000

  /** The deal's description, with the post text cut to its first thousand characters. */
  function Description(post: Post, keyword: string, nowIso: string): string {
    BeforeUrl(post, keyword) + post.url + AfterUrl(post, nowIso)
  }

  function BeforeUrl(post: Post, keyword: string): string {
    "Post de LinkedIn encontrado por keyword: " + keyword + "\n\n"
    + "Autor/Perfil: " + post.author + "\n"
    + "URL del perfil: " + (if post.profileUrl != "" then post.profileUrl else "N/A") + "\n"
    + "URL del post: "
  }

  function AfterUrl(post: Post, nowIso: string): string {
    "\n\nContenido:\n" + Prefix(post.text, MaxPostText)
    + ("\n\nFecha del post: " + (if post.createdAt != "" then post.createdAt else nowIso) + "\n")
  }

  /** The description carries the post text, truncated to at most a thousand characters, and the post's URL. */
  lemma DescriptionCarriesPost(post: Post, keyword: string, nowIso: string)
    ensures |Prefix(post.text, MaxPostText)| <= MaxPostText
    ensures StartsWith(post.text, Prefix(post.text, MaxPostText))
    ensures Contains(Description(post, keyword, nowIso), Prefix(post.text, MaxPostText))
    ensures Contains(Description(post, keyword, nowIso), post.url)
  {
    var before := BeforeUrl(post, keyword);
    var after := AfterUrl(post, nowIso);
    var d := Description(post, keyword, nowIso);
    ContainsMiddle(before, post.url, after);
    var t := Prefix(post.text, MaxPostText);
    ContainsMiddle("\n\nContenido:\n", t, "\n\nFecha del post: " + (if post.createdAt != "" then post.createdAt else nowIso) + "\n");
    assert d[|before| + |post.url|..|d|] == after;
    ContainsInfix(d, |before| + |post.url|, |d|, t);
  }

  /** The properties of a new deal. */
  datatype Deal = Deal(dealname: string, description: string, amount: string, currency: string,
                       pipeline: string, dealstage: string)

  /** Why `createDealForPost` returned null. */
  datatype NullReason = MissingData | InvalidStageConfig | InvalidPipelineConfig | NoValidStage | CreateFailed(message: string)

  /** The answer of `createDealForPost`: null, `{ duplicate: true }`, or the created deal. */
  datatype DealResult = Null(reason: NullReason) | Duplicate | Created(deal: Deal, dealId: string)

  function DealName(author: string, keyword: string): string {
    author + " - Post LinkedIn (" + keyword + ")"
  }

  /** The stage of the new deal: the configured one when set (it must be numeric), else the pipeline's first. */
  function DealStage(cfg: Config, pipelinesResponse: Result<Option<seq<Pipeline>>, string>): (r: Result<string, NullReason>)
    ensures r.Ok? ==> r.value != ""
    ensures cfg.stageEnv != "" ==> (r.Ok? <==> IsDigits(cfg.stageEnv)) && (r.Ok? ==> r.value == cfg.stageEnv)
    ensures cfg.stageEnv == "" && !IsDigits(PipelineId(cfg)) ==> r == Err(InvalidPipelineConfig)
    ensures cfg.stageEnv == "" && r.Ok? ==> Some(r.value) == ValidStageId(PipelineId(cfg), PipelinesAndStages(pipelinesResponse))
  {
    if cfg.stageEnv != "" then
      if !IsDigits(cfg.stageEnv) then Err(InvalidStageConfig) else Ok(cfg.stageEnv)
    else if !IsDigits(PipelineId(cfg)) then Err(InvalidPipelineConfig)
    else match ValidStageId(PipelineId(cfg), PipelinesAndStages(pipelinesResponse))
      case None => Err(NoValidStage)
      case Some(id) => if id == "" then Err(NoValidStage) else Ok(id)
  }

  /**
   * `createDealForPost`: validate the post, check for a duplicate, build
   * the description, pick the stage, check the pipeline id, then create
   * the deal; `create` is the CRM's answer to the creation request.
   */
  function CreateDealForPost(post: Post, keyword: string, cfg: Config, search: SearchAnswer,
                             pipelinesResponse: Result<Option<seq<Pipeline>>, string>,
                             create: Result<string, string>, nowIso: string): (r: DealResult)
    ensures post.url == "" || post.author == "" || keyword == "" ==> r == Null(MissingData)
    ensures r == Duplicate <==>
      post.url != "" && post.author != "" && keyword != "" && CheckDuplicateDeal(post.url, search).duplicate
    ensures r.Created? ==>
      && r.deal.dealname == DealName(post.author, keyword)
      && r.deal.description == Description(post, keyword, nowIso)
      && r.deal.amount == "0" && r.deal.currency == "MXN"
      && r.deal.pipeline == PipelineId(cfg) && IsDigits(r.deal.pipeline)
      && DealStage(cfg, pipelinesResponse) == Ok(r.deal.dealstage)
      && create == Ok(r.dealId)
  {
    if post.url == "" || post.author == "" || keyword == "" then Null(MissingData)
    else if CheckDuplicateDeal(post.url, search).duplicate then Duplicate
    else
      var description := Description(post, keyword, nowIso);
      match DealStage(cfg, pipelinesResponse)
      case Err(reason) => Null(reason)
      case Ok(stage) =>
        if !IsDigits(PipelineId(cfg)) then Null(InvalidPipelineConfig)
        else
          var deal := Deal(DealName(post.author, keyword), description, "0", "MXN", PipelineId(cfg), stage);
          match create
          case Err(message) => Null(CreateFailed(message))
          case Ok(id) => Created(deal, id)
  }

  /** A valid, non-duplicate post under a valid configuration is created exactly when the CRM accepts it. */
  lemma CreatedWhenAllChecksPass(post: Post, keyword: string, cfg: Config, search: SearchAnswer,
                                 pipelinesResponse: Result<Option<seq<Pipeline>>, string>,
                                 create: Result<string, string>, nowIso: string)
    requires post.url != "" && post.author != "" && keyword != ""
    requires !CheckDuplicateDeal(post.url, search).duplicate
    requires IsDigits(PipelineId(cfg)) && DealStage(cfg, pipelinesResponse).Ok?
    ensures CreateDealForPost(post, keyword, cfg, search, pipelinesResponse, create, nowIso).Created? <==> create.Ok?
  {
  }

  /** A non-numeric pipeline id blocks every creation, even with a configured stage. */
  lemma NonNumericPipelineNeverCreates(post: Post, keyword: string, cfg: Config, search: SearchAnswer,
                                       pipelinesResponse: Result<Option<seq<Pipeline>>, string>,
                                       create: Result<string, string>, nowIso: string)
    requires !IsDigits(PipelineId(cfg))
    ensures !CreateDealForPost(post, keyword, cfg, search, pipelinesResponse, create, nowIso).Created?
  {
  }
}
