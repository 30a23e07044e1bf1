/** The spoken profile questionnaire (src/components/Profile.tsx): a step
    counter that starts at 1, one profile field written per recognised
    answer, a spoken prompt per step and the completion callback once the
    three questions are answered. */
module ProfileSetup {

  datatype ProfileData = ProfileData(name: string, age: string, emergencyContact: string)

  const EmptyProfile := ProfileData("", "", "")

  const Questions: seq<string> := [
    "Please say your name",
    "Please say your age",
    "Please say your emergency contact number"
  ]

  const CompletionMessage := "Profile setup complete. Welcome to Vision Assist!"

  /** `questions[step - 1]`: the prompt for steps 1 to 3. */
  function Prompt(step: int): (q: string)
    requires 1 <= step <= 3
    ensures q in Questions
  {
    Questions[step - 1]
  }

  /** What the `switch (step)` of the recognition handler does to the profile. */
  ghost function Answer(p: ProfileData, step: int, transcript: string): (r: ProfileData)
    ensures step == 1 ==> r.name == transcript && r.age == p.age && r.emergencyContact == p.emergencyContact
    ensures step == 2 ==> r.name == p.name && r.age == transcript && r.emergencyContact == p.emergencyContact
    ensures step == 3 ==> r.name == p.name && r.age == p.age && r.emergencyContact == transcript
    ensures !(1 <= step <= 3) ==> r == p
  {
    if step == 1 then p.(name := transcript)
    else if step == 2 then p.(age := transcript)
    else if step == 3 then p.(emergencyContact := transcript)
    else p
  }

  /** The k-th answer given so far, or the initial empty field. */
  ghost function AnswerOr(answers: seq<string>, k: nat): string
  {
    if k < |answers| then answers[k] else ""
  }

  /** The profile built by the answers given so far, in order. */
  ghost function ProfileFrom(answers: seq<string>): ProfileData
  {
    ProfileData(AnswerOr(answers, 0), AnswerOr(answers, 1), AnswerOr(answers, 2))
  }

  /** Answering at step |answers| + 1 extends the profile by that answer. */
  lemma AnswerExtends(answers: seq<string>, transcript: string)
    ensures Answer(ProfileFrom(answers), |answers| + 1, transcript) == ProfileFrom(answers + [transcript])
  {
    var next := answers + [transcript];
    assert forall k :: 0 <= k < |answers| ==> next[k] == answers[k];
  }

  /** From the initial state, the first three answers become name, age and
      emergency contact, and any later answer changes nothing. */
  lemma {:induction false} ThreeAnswersFillProfile(answers: seq<string>)
    requires |answers| >= 3
    ensures ProfileFrom(answers) == ProfileData(answers[0], answers[1], answers[2])
    ensures forall t :: ProfileFrom(answers + [t]) == ProfileFrom(answers)
  {
    forall t
      ensures ProfileFrom(answers + [t]) == ProfileFrom(answers)
    {
      var next := answers + [t];
      assert next[0] == answers[0] && next[1] == answers[1] && next[2] == answers[2];
    }
  }

  /** The questionnaire's state. `spoken` are the utterances handed to
      speech synthesis (queued, never cancelled) and `completed` the
      arguments `onComplete` has received, in order. */
  class ProfileForm {
    var step: int
    var profile: ProfileData
    var spoken: seq<string>
    var completed: seq<ProfileData>
    /** The transcripts received so far. */
    ghost var answers: seq<string>

    /** The step counts the answers, the profile holds the first three of
        them, and every completion saw the finished profile. */
    ghost predicate Valid()
      reads this
    {
      && step == |answers| + 1
      && profile == ProfileFrom(answers)
      && |completed| == (if |answers| >= 3 then |answers| - 2 else 0)
      && forall k :: 0 <= k < |completed| ==> completed[k] == profile
    }

    /** Mounting the view: step 1, an empty profile, and the effect speaks
        the first question. */
    constructor ()
      ensures Valid()
      ensures step == 1 && profile == EmptyProfile
      ensures spoken == [Questions[0]] && completed == []
    {
      step := 1;
      profile := EmptyProfile;
      spoken := [];
      completed := [];
      answers := [];
      new;
      Announce();
    }

    /** The effect that runs whenever `step` changes: ask the question of
        the step, or hand the profile to `onComplete` and say goodbye. */
    method Announce()
      requires step >= 1
      modifies this`spoken, this`completed
      ensures step <= 3 ==> spoken == old(spoken) + [Prompt(step)] && completed == old(completed)
      ensures step > 3 ==>
        spoken == old(spoken) + [CompletionMessage] && completed == old(completed) + [profile]
    {
      if step <= 3 {
        spoken := spoken + [Questions[step - 1]];
      } else {
        completed := completed + [profile];
        spoken := spoken + [CompletionMessage];
      }
    }

    /** One recognition result: write the field of the current step, move to
        the next step, and run the step effect. */
    method OnResult(transcript: string)
      requires Valid()
      modifies this
      ensures Valid()
      ensures step == old(step) + 1
      ensures profile == Answer(old(profile), old(step), transcript)
      ensures answers == old(answers) + [transcript]
      ensures step <= 3 ==> spoken == old(spoken) + [Prompt(step)] && completed == old(completed)
      ensures step > 3 ==>
        spoken == old(spoken) + [CompletionMessage] && completed == old(completed) + [profile]
    {
      if step == 1 {
        profile := profile.(name := transcript);
      } else if step == 2 {
        profile := profile.(age := transcript);
      } else if step == 3 {
        profile := profile.(emergencyContact := transcript);
      }
      AnswerExtends(answers, transcript);
      if |answers| >= 3 {
        ThreeAnswersFillProfile(answers);
      }
      answers := answers + [transcript];
      step := step + 1;
      Announce();
    }
  }

  /** From the mounted view, three answers fill name, age and emergency
      contact in order, each question is asked once, and `onComplete`
      receives the filled profile. */
  method ThreeAnswers(name: string, age: string, contact: string)
    returns (profile: ProfileData, completed: seq<ProfileData>, spoken: seq<string>)
    ensures profile == ProfileData(name, age, contact)
    ensures completed == [ProfileData(name, age, contact)]
    ensures spoken == Questions + [CompletionMessage]
  {
    var form := new ProfileForm();
    form.OnResult(name);
    form.OnResult(age);
    form.OnResult(contact);
    profile, completed, spoken := form.profile, form.completed, form.spoken;
  }
}
