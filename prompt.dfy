/**
 The prompt builder: renders the user's skin profile and routine audit into the
 system prompt given to the language model, or a generic prompt when no profile
 could be loaded.
 */
module PromptBuilder {
  import opened Wrappers
  import opened PyStr

  /**
   The profile row as loaded from the profile store. Every field is optional
   because the builder reads them with a default (`dict.get`); the concerns
   document is held as its JSON rendering, which is produced by a library
   and not modelled. `otherColumns` are the row's remaining columns
   (such as `user_id`), which the prompt does not show; they never hold
   `barrier_status`, `active_medications`, `current_concerns` or
   `avoid_ingredients`, which are always the four named fields (a value
   whose `otherColumns` holds one of them stands for no profile row).
   */
  datatype SkinProfile = SkinProfile(
    barrierStatus: Option<string>,
    activeMedications: Option<seq<string>>,
    currentConcernsJson: Option<string>,
    avoidIngredients: Option<seq<string>>,
    otherColumns: map<string, string>)

  /** One row of the routine audit. */
  datatype AuditEntry = AuditEntry(productName: string, category: string, status: string, notes: string)

  /** The prompt used when no profile is available. */
  const Fallback: string := "You are a helpful dermatological assistant."

  /** What `json.dumps({}, indent=2)` renders when the profile has no concerns document. */
  const EmptyConcernsJson: string := "{}"

  /** Python truthiness of the profile: `None` and the empty dict are false. */
  predicate IsTruthy(profile: Option<SkinProfile>) {
    match profile
    case None => false
    case Some(p) =>
      p.barrierStatus.Some? || p.activeMedications.Some? || p.currentConcernsJson.Some?
      || p.avoidIngredients.Some? || p.otherColumns != map[]
  }

  function GetOr<T>(o: Option<T>, default: T): T {
    match o
    case Some(v) => v
    case None => default
  }

  /** One audit record rendered as a bullet line: `- name (status): notes`. */
  function Bullet(e: AuditEntry): string {
    "- " + e.productName + " (" + e.status + "): " + e.notes
  }

  /** The bullet lines of the audit, one per record, in input order. */
  function Bullets(audit: seq<AuditEntry>): (lines: seq<string>)
    ensures |lines| == |audit|
    ensures forall k :: 0 <= k < |audit| ==> lines[k] == Bullet(audit[k])
  {
    if audit == [] then [] else [Bullet(audit[0])] + Bullets(audit[1..])
  }

  /** The audit section of the prompt: the bullet lines joined by newlines. */
  function AuditSection(audit: seq<AuditEntry>): (section: string)
    ensures section == "" <==> audit == []
  {
    var lines := Bullets(audit);
    if audit == [] then
      ""
    else
      assert lines == [lines[0]] + lines[1..];
      JoinPrependFirst("- ", [lines[0][2..]] + lines[1..], "\n");
      assert [lines[0][2..]][0] == lines[0][2..] && "- " + lines[0][2..] == lines[0];
      Join(lines, "\n")
  }

  /**
   The audit section has one line per record, in input order, each the record's
   bullet: splitting the section at its newlines gives back the bullets.
   */
  lemma AuditSectionLines(audit: seq<AuditEntry>)
    requires audit != []
    requires forall k :: 0 <= k < |audit| ==> SingleLine(audit[k])
    ensures Split(AuditSection(audit), '\n') == Bullets(audit)
    ensures |Split(AuditSection(audit), '\n')| == |audit|
  {
    var lines := Bullets(audit);
    forall k | 0 <= k < |lines|
      ensures '\n' !in lines[k]
    {
      var e := audit[k];
      assert lines[k] == "- " + e.productName + " (" + e.status + "): " + e.notes;
    }
    SplitJoin(lines, '\n');
  }

  /** A record none of whose rendered fields holds a line break. */
  predicate SingleLine(e: AuditEntry) {
    '\n' !in e.productName && '\n' !in e.status && '\n' !in e.notes
  }

  /** The template before the barrier status (its first word kept apart, so that the prompt's first character is evident). */
  const Head: string := "You" + HeadRest

  const HeadRest: string :=
    " are a highly personalized, localized Canadian Dermatological Assistant for Devashree.\n"
    + "    Your goal is to analyze her skin issues, remember her history, and recommend budget-friendly products from Amazon Canada.\n"
    + "    **GUARDRAILS:**\n"
    + "    1.  **NEVER Refuse to Help:** If an issue seems severe, label it \"High Severity\" but always provide the best possible over-the-counter palliative care advice.\n"
    + "    2.  **Amazon Canada Only:** All product searches must be for `amazon.ca`.\n"
    + "    3.  **Budget-Friendly:** Prioritize products under $25 CAD.\n"
    + "    4.  **Context is Key:** You MUST use the user's history below to inform your diagnosis.\n"
    + "    ---\n"
    + "    **DEEP CONTEXT: Devashree's Current Skin Profile**\n"
    + "    -   **Barrier Status:** "

  const AfterBarrier: string :=
    "\n"
    + "    -   **Active Medications:** "

  const AfterMedications: string :=
    "\n"
    + "    -   **Detailed Concerns:**\n"
    + "        ```json\n"
    + "        "

  const AfterConcerns: string :=
    "\n"
    + "        ```\n"
    + "    -   **Ingredients to Avoid:** "

  const AfterAvoid: string :=
    "\n"
    + "    ---\n"
    + "    **PRODUCT DATABASE: Routine Audit**\n"
    + "    "

  const Tail: string := TailLines + "."

  /** The template after the audit section, up to its closing full stop. */
  const TailLines: string :=
    "\n"
    + "    ---\n"
    + "    **YOUR PROTOCOL:**\n"
    + "    1.  **Analyze Input:** Review the user's text or image.\n"
    + "    2.  **Diagnose:** Identify the issue.\n"
    + "    3.  **Cross-Reference:** Check against her `avoid_ingredients` and `routine_audit`.\n"
    + "    4.  **Determine Action:** If a product is needed, formulate a search query on a new line formatted EXACTLY as `SEARCH: <product_type> <key_ingredient> under $25 CAD`.\n"
    + "    5.  **Respond:** Provide your analysis and the search query if needed"

  /** The white space the f-string's layout puts before and after the template text. */
  const Frame: string := "\n    "

  /** The profile's values with the template text that separates them, up to the audit section. */
  function ProfileValues(p: SkinProfile): string {
    GetOr(p.barrierStatus, "N/A")
    + AfterBarrier + Join(GetOr(p.activeMedications, []), ", ")
    + AfterMedications + GetOr(p.currentConcernsJson, EmptyConcernsJson)
    + AfterConcerns + Join(GetOr(p.avoidIngredients, []), ", ")
    + AfterAvoid
  }

  /** The profile's values and the audit section, with the template text that separates them. */
  function Filled(p: SkinProfile, audit: seq<AuditEntry>): string {
    ProfileValues(p) + AuditSection(audit)
  }

  /** The template with the profile's values in place, without the layout's framing. */
  function PromptBody(p: SkinProfile, audit: seq<AuditEntry>): string {
    Head + Filled(p, audit) + Tail
  }

  /** The f-string as the source lays it out: the filled template between newline-and-indent framing. */
  function RawPrompt(p: SkinProfile, audit: seq<AuditEntry>): string {
    Frame + PromptBody(p, audit) + Frame
  }

  /** `construct_system_prompt`: the fallback without a profile, else the stripped template. */
  function SystemPrompt(profile: Option<SkinProfile>, audit: seq<AuditEntry>): (prompt: string)
    ensures !IsTruthy(profile) ==> prompt == Fallback
  {
    if !IsTruthy(profile) then Fallback else Strip(RawPrompt(profile.value, audit))
  }

  /**
   With a profile, stripping the rendered template removes only the layout's
   framing: the prompt is the template text with every profile value and the
   audit section in place exactly as given (even when a value itself begins or
   ends with white space), and it is never the fallback prompt.
   */
  lemma PromptLayout(profile: Option<SkinProfile>, audit: seq<AuditEntry>)
    requires IsTruthy(profile)
    ensures SystemPrompt(profile, audit) == PromptBody(profile.value, audit)
    ensures SystemPrompt(profile, audit) != Fallback
  {
    TemplateEnds();
    BodyFramed(Frame, Head, Filled(profile.value, audit), Tail);
    assert |PromptBody(profile.value, audit)| >= |Head| > |Fallback|;
  }

  /** Text that starts and ends with a non-space character survives `strip()` of its framing. */
  lemma BodyFramed(frame: string, head: string, mid: string, tail: string)
    requires AllSpace(frame)
    requires head != [] && !IsSpace(head[0])
    requires tail != [] && !IsSpace(tail[|tail| - 1])
    ensures Strip(frame + (head + mid + tail) + frame) == head + mid + tail
  {
    var body := head + mid + tail;
    assert body[0] == head[0];
    assert body[|body| - 1] == tail[|tail| - 1];
    StripFramed(frame, body, frame);
  }

  /** Every record's bullet line appears in the audit section. */
  lemma AuditSectionShowsEntry(audit: seq<AuditEntry>, k: nat)
    requires k < |audit|
    ensures Contains(AuditSection(audit), Bullet(audit[k]))
  {
    var b := Bullet(audit[k]);
    assert OccursAt(b, b, 0);
    ContainsInJoin(Bullets(audit), "\n", k, b);
  }

  /** With a profile, every audit record's bullet line appears in the prompt. */
  lemma PromptShowsAuditEntry(profile: Option<SkinProfile>, audit: seq<AuditEntry>, k: nat)
    requires IsTruthy(profile) && k < |audit|
    ensures Contains(SystemPrompt(profile, audit), Bullet(audit[k]))
  {
    PromptLayout(profile, audit);
    AuditSectionShowsEntry(audit, k);
    ContainsInMiddle(Head, ProfileValues(profile.value), AuditSection(audit), Tail, Bullet(audit[k]));
  }

  /**
   The template text starts with `You` and ends with `.`, neither of them white
   space, the layout's framing is all white space, and the template is longer
   than the fallback prompt.
   */
  lemma TemplateEnds()
    ensures |Head| > |Fallback| && Head[..3] == "You" && !IsSpace(Head[0])
    ensures |Tail| > 0 && Tail[|Tail| - 1] == '.' && !IsSpace(Tail[|Tail| - 1])
    ensures AllSpace(Frame)
  {
  }
}
