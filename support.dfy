/** The help centre page: a case-insensitive FAQ search with quick-query
    category buttons, an accordion in which at most one FAQ is open, and a
    contact form whose send is simulated by a timer. */
module Support {
  import opened Wrappers
  import opened JsText
  import Lists

  datatype Faq = Faq(id: int, question: string, answer: string)

  /** A FAQ matches when its question or its answer contains the query, ignoring
      case: the empty query matches every FAQ, and a matching query is no longer
      than the question or the answer. */
  function FaqMatches(faq: Faq, searchQuery: string): (matches: bool)
    ensures searchQuery == "" ==> matches
    ensures matches ==> |searchQuery| <= |faq.question| || |searchQuery| <= |faq.answer|
  {
    || Includes(ToLower(faq.question), ToLower(searchQuery))
    || Includes(ToLower(faq.answer), ToLower(searchQuery))
  }

  /** `filteredFaqs`. */
  function FilteredFaqs(faqs: seq<Faq>, searchQuery: string): (shown: seq<Faq>)
    ensures forall f :: f in shown <==> f in faqs && FaqMatches(f, searchQuery)
    ensures forall f :: multiset(shown)[f] == if FaqMatches(f, searchQuery) then multiset(faqs)[f] else 0
  {
    Lists.Filter((f: Faq) => FaqMatches(f, searchQuery), faqs)
  }

  lemma FilteredFaqsKeepOrder(faqs: seq<Faq>, searchQuery: string)
    ensures Lists.IsSubsequence(FilteredFaqs(faqs, searchQuery), faqs)
  {
    Lists.FilterIsSubsequence((f: Faq) => FaqMatches(f, searchQuery), faqs);
  }

  /** An empty query shows every FAQ. */
  lemma EmptyQueryShowsAllFaqs(faqs: seq<Faq>)
    ensures FilteredFaqs(faqs, "") == faqs
  {
    Lists.FilterKeepsAll((f: Faq) => FaqMatches(f, ""), faqs);
  }

  lemma FaqSearchIgnoresCase(faqs: seq<Faq>, query: string, query': string)
    requires ToLower(query) == ToLower(query')
    ensures FilteredFaqs(faqs, query) == FilteredFaqs(faqs, query')
  {
    Lists.FilterAgrees((f: Faq) => FaqMatches(f, query), (f: Faq) => FaqMatches(f, query'), faqs);
  }

  /** The four quick-category buttons. */
  datatype HelpCategory = Payments | Account | TaskHelp | General

  /** The query each category button puts in the search box. */
  function QuickQuery(category: HelpCategory): (query: string)
    ensures query == "" <==> category == General
    ensures query == ToLower(query)
  {
    match category
    case Payments => "withdraw"
    case Account => "account"
    case TaskHelp => "task"
    case General => ""
  }

  /** The `General` button lists every FAQ. */
  lemma GeneralShowsAllFaqs(faqs: seq<Faq>)
    ensures FilteredFaqs(faqs, QuickQuery(General)) == faqs
  {
    EmptyQueryShowsAllFaqs(faqs);
  }

  /** The accordion's click rule: the open FAQ closes, any other FAQ becomes the only open one. */
  function ToggledFaq(openFaqId: Option<int>, clicked: int): (next: Option<int>)
    ensures next == None <==> openFaqId == Some(clicked)
    ensures next != None ==> next == Some(clicked)
  {
    if openFaqId == Some(clicked) then None else Some(clicked)
  }

  /** Clicking the same FAQ twice restores the accordion, unless another FAQ was open,
      in which case the first click closed it for good. */
  lemma ToggleTwice(openFaqId: Option<int>, clicked: int)
    ensures ToggledFaq(ToggledFaq(openFaqId, clicked), clicked)
              == if openFaqId == Some(clicked) then Some(clicked) else None
  {
  }

  /** Whether the accordion shows `faq` open (`openFaqId === faq.id`). */
  predicate IsOpen(openFaqId: Option<int>, faq: Faq)
  {
    openFaqId == Some(faq.id)
  }

  /** After any click, the only FAQs shown open are those with the clicked id, so
      at most one id is open; they are open exactly when they were closed before. */
  lemma OnlyClickedIsOpen(openFaqId: Option<int>, clicked: int)
    ensures forall f: Faq :: IsOpen(ToggledFaq(openFaqId, clicked), f) ==> f.id == clicked
    ensures forall f: Faq :: f.id == clicked ==> (IsOpen(ToggledFaq(openFaqId, clicked), f) <==> !IsOpen(openFaqId, f))
  {
  }

  /** A contact message is sent only when it has something other than whitespace. */
  function MessageAccepted(message: string): (accepted: bool)
    ensures accepted <==> !AllWhitespace(message)
  {
    !IsBlank(message)
  }

  /** The message is accepted exactly when some character of it is not whitespace. */
  lemma MessageAcceptedIffVisible(message: string)
    ensures MessageAccepted(message) <==> exists i :: 0 <= i < |message| && !IsJsWhitespace(message[i])
  {
  }

  class SupportPage {
    const faqs: seq<Faq>
    var searchQuery: string
    var openFaqId: Option<int>
    var subject: string
    var message: string
    var sending: bool

    constructor (faqs: seq<Faq>)
      ensures this.faqs == faqs && searchQuery == "" && openFaqId == None
      ensures subject == "" && message == "" && !sending
    {
      this.faqs := faqs;
      searchQuery := "";
      openFaqId := None;
      subject := "";
      message := "";
      sending := false;
    }

    function Shown(): seq<Faq>
      reads this`searchQuery
    {
      FilteredFaqs(faqs, searchQuery)
    }

    method SetSearchQuery(query: string)
      modifies this`searchQuery
      ensures searchQuery == query
    {
      searchQuery := query;
    }

    /** A quick-category button. */
    method PickCategory(category: HelpCategory)
      modifies this`searchQuery
      ensures searchQuery == QuickQuery(category)
      ensures category == General ==> Shown() == faqs
    {
      searchQuery := QuickQuery(category);
      if category == General {
        GeneralShowsAllFaqs(faqs);
      }
    }

    /** A click on a FAQ's header. */
    method ToggleFaq(clicked: int)
      modifies this`openFaqId
      ensures openFaqId == ToggledFaq(old(openFaqId), clicked)
      ensures openFaqId == None || openFaqId == Some(clicked)
    {
      openFaqId := ToggledFaq(openFaqId, clicked);
    }

    method EditSubject(value: string)
      modifies this`subject
      ensures subject == value
    {
      subject := value;
    }

    method EditMessage(value: string)
      modifies this`message
      ensures message == value
    {
      message := value;
    }

    /** `handleContactSubmit`. The submit button is disabled while sending.
        A blank message is refused with an error toast and changes nothing;
        otherwise sending starts and the reply timer is armed. */
    method SubmitContact() returns (accepted: bool, notice: Option<Toast>)
      requires !sending
      modifies this`sending
      ensures accepted <==> MessageAccepted(message)
      ensures !accepted ==> !sending && notice == Some(ErrorToast("Please enter a message"))
      ensures accepted ==> sending && notice == None
    {
      if IsBlank(message) {
        return false, Some(ErrorToast("Please enter a message"));
      }
      sending := true;
      accepted, notice := true, None;
    }

    /** The timer set by an accepted submit: confirm, clear the form, stop sending. */
    method SendTimerFired() returns (notice: Toast)
      requires sending
      modifies this`subject, this`message, this`sending
      ensures subject == "" && message == "" && !sending
      ensures notice == SuccessToast("Message sent! We'll reply within 24 hours.")
    {
      subject, message := "", "";
      sending := false;
      notice := SuccessToast("Message sent! We'll reply within 24 hours.");
    }
  }
}
