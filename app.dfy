/**
 * The session store of the app component: the state it keeps with `useState`
 * and the handlers that change it. Each handler requires the view that shows
 * its button or field, since nothing else can invoke it. The risk status is
 * not stored: it is a function of the ledgers and the latest PHQ-9 total,
 * re-derived whenever they change.
 *
 * The screens are components declared inside the app component, so their own
 * state (the selected mood and notes, the journal draft, the call duration) is
 * created afresh each time a screen is shown; it is kept here as fields that
 * are reset when a feature screen is opened.
 */
module App {
  import opened Optional
  import opened Ledger
  import opened Text
  import opened Navigation
  import Risk
  import Assessment

  /** The mood preselected when the mood screen is shown (the neutral face). */
  const DEFAULT_MOOD := 3
  /** Number of mood buttons; button i selects mood i + 1. */
  const MOOD_BUTTONS := 5

  /** Every stored mood is one a mood button produces. */
  predicate MoodsInRange(moods: seq<MoodEntry>) {
    forall k :: 0 <= k < |moods| ==> Risk.IsValidMood(moods[k].mood)
  }

  /** Every journal entry has non-blank content and a non-empty title. */
  predicate JournalWellFormed(entries: seq<JournalEntry>) {
    forall k :: 0 <= k < |entries| ==> !IsBlank(entries[k].content) && entries[k].title != []
  }

  lemma AppendMood(moods: seq<MoodEntry>, e: MoodEntry)
    requires MoodsInRange(moods) && Risk.IsValidMood(e.mood)
    ensures MoodsInRange(moods + [e])
  {
  }

  lemma AppendJournal(entries: seq<JournalEntry>, e: JournalEntry)
    requires JournalWellFormed(entries) && !IsBlank(e.content) && e.title != []
    ensures JournalWellFormed(entries + [e])
  {
  }

  class MentalHealthApp {
    var currentScreen: string
    var currentTab: string
    var userData: Option<ProfileForm>
    var moodData: seq<MoodEntry>
    var journalEntries: seq<JournalEntry>
    var phq9Score: int
    var phq9Answers: seq<int>
    var currentPHQ9Question: int
    var isCallActive: bool

    // State local to the mood, journal and call screens.
    var selectedMood: int
    var notes: string
    var title: string
    var newEntry: string
    var callDuration: nat

    function Nav(): Navigation.Nav
      reads this
    {
      Navigation.Nav(currentScreen, currentTab)
    }

    function Phq9(): Assessment.Phq9
      reads this
    {
      Assessment.Phq9(phq9Answers, currentPHQ9Question, phq9Score)
    }

    /**
     * `mentalHealthStatus`, recomputed from the current ledgers and total: never
     * below what the latest PHQ-9 total alone gives, and low before any mood or
     * assessment has been recorded.
     */
    function MentalHealthStatus(): (r: Risk.RiskLevel)
      reads this
      ensures Risk.Rank(Risk.Classify(Risk.Phq9Weight(phq9Score))) <= Risk.Rank(r)
      ensures moodData == [] && phq9Score == 0 ==> r == Risk.Low
    {
      Risk.CalculateMentalHealthPrediction(moodData, phq9Score, |journalEntries|)
    }

    ghost predicate Valid()
      reads this
    {
      && WellFormed(Nav())
      && Assessment.Valid(Phq9())
      // a profile is stored exactly when onboarding is over, and only a complete one
      && (userData == None <==> currentScreen == STUDENT_DETAILS)
      && (userData.Some? ==> IsComplete(userData.value))
      // moods come from the five buttons
      && Risk.IsValidMood(selectedMood)
      && MoodsInRange(moodData)
      && JournalWellFormed(journalEntries)
    }

    constructor ()
      ensures Valid()
      ensures Nav() == INITIAL && userData == None
      ensures moodData == [] && journalEntries == []
      ensures Phq9() == Assessment.Initial() && !isCallActive
      ensures selectedMood == DEFAULT_MOOD && notes == [] && title == [] && newEntry == [] && callDuration == 0
      ensures MentalHealthStatus() == Risk.Low
    {
      currentScreen := STUDENT_DETAILS;
      currentTab := HOME;
      userData := None;
      moodData := [];
      journalEntries := [];
      phq9Score := 0;
      phq9Answers := seq(Assessment.QUESTION_COUNT, _ => 0);
      currentPHQ9Question := 0;
      isCallActive := false;
      selectedMood := DEFAULT_MOOD;
      notes := [];
      title := [];
      newEntry := [];
      callDuration := 0;
      Assessment.InitialValid();
      Risk.NoDataIsLow([], 0);
    }

    /** `handleSubmit`: with all four fields non-empty, store the profile and go to the main screen. */
    method HandleSubmit(form: ProfileForm)
      requires Valid() && Render(Nav()) == StudentDetailsScreen
      modifies this`currentScreen, this`userData
      ensures Valid()
      ensures Nav() == Step(old(Nav()), Submit(form))
      ensures userData == if IsComplete(form) then Some(form) else old(userData)
    {
      if IsComplete(form) {
        userData := Some(form);
        currentScreen := MAIN;
      }
    }

    /** A feature card of the home dashboard: show that screen, with its own state fresh. */
    method OpenFeature(target: string)
      requires Valid() && Offered(Nav(), Intent.OpenFeature(target))
      modifies this`currentScreen, this`selectedMood, this`notes, this`title, this`newEntry, this`callDuration
      ensures Valid()
      ensures Nav() == Step(old(Nav()), Intent.OpenFeature(target)) && currentScreen == target
      ensures selectedMood == DEFAULT_MOOD && notes == [] && title == [] && newEntry == [] && callDuration == 0
    {
      WellFormedRendersByName(Nav());
      FeatureScreenIsDetail(target);
      currentScreen := target;
      selectedMood := DEFAULT_MOOD;
      notes := [];
      title := [];
      newEntry := [];
      callDuration := 0;
    }

    /** "Back to Home" on a detail screen. */
    method GoBack()
      requires Valid() && HasBackButton(Render(Nav()))
      modifies this`currentScreen
      ensures Valid()
      ensures Nav() == Step(old(Nav()), Back) && Nav() == Navigation.Nav(MAIN, old(currentTab))
    {
      currentScreen := MAIN;
    }

    /** A button of the bottom tab bar. */
    method SelectTab(key: string)
      requires Valid() && Offered(Nav(), Intent.SelectTab(key))
      modifies this`currentTab
      ensures Valid()
      ensures Nav() == Step(old(Nav()), Intent.SelectTab(key)) && currentTab == key
    {
      currentTab := key;
    }

    /** Mood button `index` (0..4) selects mood `index + 1`. */
    method SelectMood(index: int)
      requires Valid() && Render(Nav()) == MoodTrackingScreen && 0 <= index < MOOD_BUTTONS
      modifies this`selectedMood
      ensures Valid() && selectedMood == index + 1
    {
      selectedMood := index + 1;
    }

    method EditNotes(text: string)
      requires Valid() && Render(Nav()) == MoodTrackingScreen
      modifies this`notes
      ensures Valid() && notes == text
    {
      notes := text;
    }

    /**
     * `saveMood`: append one entry carrying the selected mood and the notes,
     * with no range check of its own; then reset the selection and the notes.
     */
    method SaveMood(date: string, timestamp: int)
      requires Valid() && Render(Nav()) == MoodTrackingScreen
      modifies this`moodData, this`selectedMood, this`notes
      ensures Valid()
      ensures moodData == old(moodData) + [MoodEntry(date, old(selectedMood), old(notes), timestamp)]
      ensures selectedMood == DEFAULT_MOOD && notes == []
    {
      var entry := MoodEntry(date, selectedMood, notes, timestamp);
      AppendMood(moodData, entry);
      moodData := moodData + [entry];
      selectedMood := DEFAULT_MOOD;
      notes := [];
    }

    method EditTitle(text: string)
      requires Valid() && Render(Nav()) == JournalingScreen
      modifies this`title
      ensures Valid() && title == text
    {
      title := text;
    }

    method EditEntry(text: string)
      requires Valid() && Render(Nav()) == JournalingScreen
      modifies this`newEntry
      ensures Valid() && newEntry == text
    {
      newEntry := text;
    }

    /**
     * `saveJournal`: when the draft is not blank after trimming, append one
     * entry (title defaulting to "Journal Entry", content as typed) and clear
     * the draft; a blank draft changes nothing. The test `newEntry.trim()` is
     * truthy exactly when the draft is not blank, by the contract of `Trim`.
     */
    method SaveJournal(id: int, date: string, timestamp: int)
      requires Valid() && Render(Nav()) == JournalingScreen
      modifies this`journalEntries, this`title, this`newEntry
      ensures Valid()
      ensures !IsBlank(old(newEntry)) ==>
                && journalEntries == old(journalEntries) + [JournalEntry(id, EntryTitle(old(title)), old(newEntry), date, timestamp)]
                && title == [] && newEntry == []
      ensures IsBlank(old(newEntry)) ==>
                journalEntries == old(journalEntries) && title == old(title) && newEntry == old(newEntry)
    {
      if !IsBlank(newEntry) {
        var entry := JournalEntry(id, EntryTitle(title), newEntry, date, timestamp);
        AppendJournal(journalEntries, entry);
        journalEntries := journalEntries + [entry];
        newEntry := [];
        title := [];
      }
    }

    /**
     * `handleAnswer(score)` for an option button: the assessment moves as
     * `Assessment.Answer` says.
     */
    method HandleAnswer(score: int)
      requires Valid() && Render(Nav()) == Phq9Screen && Assessment.IsAnswer(score)
      modifies this`phq9Answers, this`currentPHQ9Question, this`phq9Score
      ensures Valid()
      ensures Phq9() == Assessment.Answer(old(Phq9()), score)
    {
      Assessment.AnswerPreservesValid(Phq9(), score);
      var newAnswers := phq9Answers[currentPHQ9Question := score];
      phq9Answers := newAnswers;
      if currentPHQ9Question < Assessment.QUESTION_COUNT - 1 {
        currentPHQ9Question := currentPHQ9Question + 1;
      } else {
        var totalScore := Assessment.Sum(newAnswers);
        phq9Score := totalScore;
        currentPHQ9Question := 0;
      }
    }

    method StartCall()
      requires Valid() && Render(Nav()) == VoiceCallScreen && !isCallActive
      modifies this`isCallActive, this`callDuration
      ensures Valid() && isCallActive && callDuration == 0
    {
      isCallActive := true;
      callDuration := 0;
    }

    method EndCall()
      requires Valid() && Render(Nav()) == VoiceCallScreen && isCallActive
      modifies this`isCallActive, this`callDuration
      ensures Valid() && !isCallActive && callDuration == 0
    {
      isCallActive := false;
      callDuration := 0;
    }

    /**
     * One second of the call timer. The interval exists only while the call
     * screen is shown and a call is active; otherwise nothing ticks.
     */
    method Tick()
      requires Valid()
      modifies this`callDuration
      ensures Valid()
      ensures callDuration == if isCallActive && currentScreen == VOICE_CALL then old(callDuration) + 1 else old(callDuration)
    {
      if isCallActive && currentScreen == VOICE_CALL {
        callDuration := callDuration + 1;
      }
    }
  }

  /**
   * In a session every stored mood came from a mood button, so every entry
   * counts toward the average, and the status shown is the cleared-denominator
   * comparison over the whole mood ledger.
   */
  lemma SessionStatus(app: MentalHealthApp)
    requires app.Valid() && app.moodData != []
    ensures var n := |app.moodData|;
            var x := Risk.IntegerScaledTotal(n, Risk.MoodSum(app.moodData), app.phq9Score, |app.journalEntries| < Risk.ENGAGED_ENTRIES);
      && (app.MentalHealthStatus() == Risk.High <==> x >= 30 * n)
      && (app.MentalHealthStatus() == Risk.Moderate <==> 16 * n <= x < 30 * n)
      && (app.MentalHealthStatus() == Risk.Low <==> x < 16 * n)
  {
    assert MoodsInRange(app.moodData);
    Risk.ValidLedgerKeepsAll(app.moodData);
    Risk.IntegerClassification(app.moodData, app.phq9Score, |app.journalEntries|);
  }
}
