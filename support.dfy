/** The support page's FAQ accordion: at most one answer is expanded at a
    time, and clicking a question toggles it. The search box is kept as
    state but filters nothing. */
module Support {

  datatype Option<T> = None | Some(value: T)

  datatype Faq = Faq(question: string, answer: string)

  const Faqs: seq<Faq> := [
    Faq("How do I access my courses?",
        "After enrollment, you can access your courses through your dashboard. Simply log in and click on 'My Courses' to view all your enrolled programs."),
    Faq("Can I download course materials?",
        "Yes, most course materials including PDFs, slides, and resources can be downloaded for offline study. Look for the download icon next to each resource."),
    Faq("What if I'm not satisfied with a course?",
        "We offer a 30-day money-back guarantee for all courses. If you're not satisfied, contact our support team within 30 days of purchase for a full refund."),
    Faq("How do I get a course certificate?",
        "Complete all course modules and pass the final assessment with a score of 80% or higher to receive your certificate. Certificates are automatically generated upon completion."),
    Faq("Can I switch between courses?",
        "Yes, you can pause one course and start another at any time. Your progress is automatically saved, and you can resume where you left off."),
    Faq("Is there a mobile app available?",
        "Yes, our mobile app is available for both iOS and Android. You can download it from the App Store or Google Play Store to learn on the go.")
  ]

  /** `setExpandedFaq(expandedFaq === index ? null : index)` */
  function Toggle(expanded: Option<nat>, index: nat): (next: Option<nat>)
    ensures next == None <==> expanded == Some(index)
    ensures next != None ==> next == Some(index)
  {
    if expanded == Some(index) then None else Some(index)
  }

  /** Two clicks on the same question leave nothing expanded, unless that
      question was the expanded one, which is then expanded again */
  lemma ToggleTwice(expanded: Option<nat>, index: nat)
    ensures Toggle(Toggle(expanded, index), index) == if expanded == Some(index) then Some(index) else None
  {
  }

  /** So "two clicks always collapse" fails from the state where the clicked
      question is already open */
  lemma ToggleTwiceFromExpanded()
    ensures Toggle(Toggle(Some(2), 2), 2) == Some(2)
  {
  }

  /** One rendered FAQ entry */
  datatype FaqView = FaqView(question: string, shownAnswer: Option<string>, chevronRotated: bool)

  /** `faqs.map(...)`: every question is listed; the answer is shown and the
      chevron rotated exactly for the expanded index; the query is not used */
  function RenderFaqs(expanded: Option<nat>, searchQuery: string): (views: seq<FaqView>)
    ensures |views| == |Faqs|
    ensures forall k :: 0 <= k < |views| ==> views[k].question == Faqs[k].question
    ensures forall k :: 0 <= k < |views| ==>
      (views[k].shownAnswer.Some? <==> expanded == Some(k)) &&
      (views[k].chevronRotated <==> expanded == Some(k))
    ensures forall k :: 0 <= k < |views| && views[k].shownAnswer.Some? ==>
      views[k].shownAnswer.value == Faqs[k].answer
  {
    seq(|Faqs|, k requires 0 <= k < |Faqs| =>
      FaqView(Faqs[k].question,
              if expanded == Some(k) then Some(Faqs[k].answer) else None,
              expanded == Some(k)))
  }

  /** At most one answer is ever shown */
  lemma AtMostOneAnswerShown(expanded: Option<nat>, searchQuery: string, j: nat, k: nat)
    requires j < |Faqs| && k < |Faqs|
    requires RenderFaqs(expanded, searchQuery)[j].shownAnswer.Some?
    requires RenderFaqs(expanded, searchQuery)[k].shownAnswer.Some?
    ensures j == k
  {
  }

  /** What is rendered does not depend on the search query */
  lemma SearchDoesNotFilter(expanded: Option<nat>, q1: string, q2: string)
    ensures RenderFaqs(expanded, q1) == RenderFaqs(expanded, q2)
  {
  }

  class SupportPage {
    var searchQuery: string
    var expandedFaq: Option<nat>

    /** The expanded index, if any, names one of the FAQs */
    ghost predicate Valid()
      reads this
    {
      expandedFaq.Some? ==> expandedFaq.value < |Faqs|
    }

    constructor ()
      ensures Valid()
      ensures searchQuery == "" && expandedFaq == None
    {
      searchQuery := "";
      expandedFaq := None;
    }

    /** A click on question `index`; indices come from `faqs.map` */
    method ClickFaq(index: nat)
      requires Valid() && index < |Faqs|
      modifies this`expandedFaq
      ensures Valid()
      ensures expandedFaq == Toggle(old(expandedFaq), index)
    {
      expandedFaq := Toggle(expandedFaq, index);
    }

    /** The search box's `onChange` */
    method SetSearchQuery(query: string)
      modifies this`searchQuery
      ensures searchQuery == query
    {
      searchQuery := query;
    }

    function Rendered(): (views: seq<FaqView>)
      reads this
    {
      RenderFaqs(expandedFaq, searchQuery)
    }
  }

  /** What a caller can conclude from the contracts alone */
  method AccordionScenario()
  {
    var page := new SupportPage();
    assert forall k :: 0 <= k < |Faqs| ==> page.Rendered()[k].shownAnswer == None;
    page.ClickFaq(1);
    page.ClickFaq(4);
    page.SetSearchQuery("refund");
    assert page.Rendered()[4].shownAnswer == Some(Faqs[4].answer);
    assert page.Rendered()[1].shownAnswer == None;
    page.ClickFaq(4);
    assert page.expandedFaq == None;
  }
}
