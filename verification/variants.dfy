/** How the two components' evaluation guards relate: the richer one trims the topic
    and asks for three characters, the simpler one only asks for a non-empty topic. */
module Variants {
  import opened Domain
  import opened Text
  import Feynmind
  import Snapchef

  /** Whatever the richer guard lets through, the simpler one does too. */
  lemma {:induction false} StricterGuard(blob: Option<Blob>, topic: string)
    requires Feynmind.EvaluateRejection(blob, topic).None?
    ensures Snapchef.EvaluateRejection(blob, topic).None?
  {
    Feynmind.EvaluateRejectionCases(blob, topic);
  }

  /** A non-empty topic of whitespace only is sent by the simpler component and refused,
      with the same message, by the richer one. */
  lemma {:induction false} BlankTopicSplits(blob: Blob, topic: string)
    requires topic != [] && IsBlank(topic)
    ensures Snapchef.EvaluateRejection(Some(blob), topic).None?
    ensures Feynmind.EvaluateRejection(Some(blob), topic) == Some(Snapchef.MissingInputMessage)
  {
    Feynmind.EvaluateRejectionCases(Some(blob), topic);
  }

  /** Apart from a non-empty blank topic, the richer guard asks for the artifact and the
      topic on exactly the inputs the simpler one refuses. */
  lemma {:induction false} SameMissingInput(blob: Option<Blob>, topic: string)
    requires !IsBlank(topic) || topic == []
    ensures Feynmind.EvaluateRejection(blob, topic) == Some(Feynmind.MissingInputMessage) <==>
      Snapchef.EvaluateRejection(blob, topic).Some?
  {
    Feynmind.EvaluateRejectionCases(blob, topic);
  }
}
