/**
 * The prompt registry: which system prompt and which task suffix each task
 * type uses, with the generic defaults for unregistered tasks.
 */
module Prompts {
  import opened Common

  /** The prompt modules the registries point at. */
  datatype PromptModule = RoleClassifier | ScribeSystem | SoapModule | ReferralModule | CertificateModule

  const DefaultSystemPrompt: string := "You are a helpful medical assistant."

  const ScribeSystemPrompt: string :=
    "You are an expert Medical Scribe assisting a physician.\n"
    + "Your Role: Document clinical consultations accurately and professionally.\n"
    + "Core Principle: You must strictly follow the 'Output Format' and 'Instructions' "
    + "provided at the very end of the user prompt (The Suffix).\n"
    + "Tone: Objective, clinical, and professional."

  const ClassifierPrompt: string :=
    "You are a Medical Conversation Classifier.\n"
    + "Task: Assign 'Doctor' or 'Patient' role to each text segment.\n"
    + "Context: Doctors ask clinical questions/give advice. Patients describe symptoms.\n\n"
    + "Input Format: JSON List of {id, text}\n"
    + "Output Format: JSON Object mapping {id: role}\n"
    + "Example Output: {\"0\": \"Doctor\", \"1\": \"Patient\"}\n"
    + "Constraint: Output VALID JSON only. Do not rewrite text."

  /** The line that introduces the note in both plain-text suffixes. */
  const ReferenceHeader: string := "--- REFERENCE: FINAL SOAP NOTE ---\n"

  const ReferralInstructions: string :=
    "\n\nTASK: Write a formal Referral Letter based on the dialogue and SOAP note above.\n"
    + "Output Format: PLAIN TEXT ONLY.\n"
    + "Constraints:\n"
    + "1. Do NOT use JSON.\n"
    + "2. Do NOT include conversational fillers like 'Here is the letter'.\n"
    + "3. Start directly with 'Date:' or 'To Dr. [Name]'.\n"
    + "4. Include patient demographics if available, otherwise use placeholders."

  const CertificateInstructions: string :=
    "\n\nTASK: Write a formal Medical Certificate based on the SOAP note above.\n"
    + "Output Format: PLAIN TEXT ONLY.\n"
    + "Constraints:\n"
    + "1. Do NOT use JSON.\n"
    + "2. Do NOT include conversational fillers like 'Here is the certificate'.\n"
    + "3. Start directly with the title 'MEDICAL CERTIFICATE'.\n"
    + "4. Structure must include:\n"
    + "   - Patient Name & Demographics (use placeholders if missing)\n"
    + "   - Date of Exam\n"
    + "   - Diagnosis (Assessment)\n"
    + "   - Unfitness for work/school (Duration)\n"
    + "   - Doctor's Name/Signature placeholder\n"
    + "5. Keep the tone strictly formal and medico-legal."

  /** `SYSTEM_REGISTRY.get(task_type)`. */
  function SystemRegistry(taskType: string): Option<PromptModule>
  {
    if taskType == "role_service" then Some(RoleClassifier)
    else if taskType in {"soap", "soap_final", "referral", "certificate"} then Some(ScribeSystem)
    else None
  }

  /** `SUFFIX_REGISTRY.get(task_type)`. */
  function SuffixRegistry(taskType: string): Option<PromptModule>
  {
    if taskType in {"soap", "soap_final"} then Some(SoapModule)
    else if taskType == "referral" then Some(ReferralModule)
    else if taskType == "certificate" then Some(CertificateModule)
    else None
  }

  /** `module.get_prompt()` for the modules that define it. */
  function ModulePrompt(m: PromptModule): Option<string>
  {
    match m
    case RoleClassifier => Some(ClassifierPrompt)
    case ScribeSystem => Some(ScribeSystemPrompt)
    case _ => None
  }

  /** `module.get_suffix(task_type, context)` for the modules that define it; the soap module has none. */
  function ModuleSuffix(m: PromptModule, context: string): Option<string>
  {
    match m
    case ReferralModule => Some(ReferenceHeader + context + ReferralInstructions)
    case CertificateModule => Some(ReferenceHeader + context + CertificateInstructions)
    case _ => None
  }

  /** `get_system_prompt`: the registered module's prompt, or the generic assistant prompt. */
  function GetSystemPrompt(taskType: string): (r: string)
    ensures taskType in {"soap", "soap_final", "referral", "certificate"} ==> r == ScribeSystemPrompt
    ensures taskType == "role_service" ==> r == ClassifierPrompt
    ensures taskType !in {"soap", "soap_final", "referral", "certificate", "role_service"} ==> r == DefaultSystemPrompt
  {
    var m := SystemRegistry(taskType);
    if m.Some? && ModulePrompt(m.value).Some? then ModulePrompt(m.value).value else DefaultSystemPrompt
  }

  /** `get_suffix_prompt`: the registered module's suffix, or "" when there is none. */
  function GetSuffixPrompt(taskType: string, context: string): (r: string)
    ensures taskType !in {"referral", "certificate"} ==> r == ""
    ensures taskType == "referral" ==> r == ReferenceHeader + context + ReferralInstructions
    ensures taskType == "certificate" ==> r == ReferenceHeader + context + CertificateInstructions
  {
    var m := SuffixRegistry(taskType);
    if m.Some? && ModuleSuffix(m.value, context).Some? then ModuleSuffix(m.value, context).value else ""
  }

  /** The plain-text suffixes quote the note context verbatim, right after the header. */
  lemma SuffixQuotesContext(taskType: string, context: string)
    requires taskType in {"referral", "certificate"}
    ensures OccursAt(GetSuffixPrompt(taskType, context), context, |ReferenceHeader|)
    ensures Contains(GetSuffixPrompt(taskType, context), context)
  {
    var r := GetSuffixPrompt(taskType, context);
    var tail := if taskType == "referral" then ReferralInstructions else CertificateInstructions;
    assert r == ReferenceHeader + context + tail;
    assert r[|ReferenceHeader|..|ReferenceHeader| + |context|] == context;
    OccursContains(r, context, |ReferenceHeader|);
  }
}
