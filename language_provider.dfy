/**
 * The language context: four interface languages, a translation table per
 * language, the `t` lookup that falls back to the key, the language names,
 * and the current language with its saved copy in browser storage (modelled
 * as a key-to-string map).
 */
module LanguageProvider {
  import opened Wrappers

  datatype Language = En | Hi | Ur | Te

  /** The code each language is stored and keyed under. */
  function LanguageCode(l: Language): string
  {
    match l
    case En => "en"
    case Hi => "hi"
    case Ur => "ur"
    case Te => "te"
  }

  /** `Object.keys(translations).includes(code)`: the language a code names, if any. */
  function LanguageFromCode(code: string): (r: Option<Language>)
    ensures r.Some? ==> LanguageCode(r.value) == code
    ensures r.None? ==> forall l :: LanguageCode(l) != code
  {
    if code == "en" then Some(En)
    else if code == "hi" then Some(Hi)
    else if code == "ur" then Some(Ur)
    else if code == "te" then Some(Te)
    else None
  }

  /** Every language's code names that language and no other. */
  lemma CodeRoundTrip(l: Language)
    ensures LanguageFromCode(LanguageCode(l)) == Some(l)
  {
  }

  /** The English table. */
  const EnglishTable: map<string, string> := map[
    "home" := "Home",
    "flights" := "Flights",
    "manageBookings" := "Manage Bookings",
    "offers" := "Offers",
    "support" := "Help & Support",
    "login" := "Login",
    "signup" := "Sign Up",
    "search" := "Search",
    "from" := "From",
    "to" := "To",
    "departDate" := "Departure Date",
    "returnDate" := "Return Date",
    "passengers" := "Passengers",
    "cabinClass" := "Cabin Class",
    "searchFlights" := "Search Flights",
    "Round Trip" := "Round Trip",
    "One Way" := "One Way",
    "chatWithUs" := "Chat with Us",
    "contactUs" := "Contact Us",
    "faqs" := "FAQs",
    "findBooking" := "Find Your Booking",
    "bookingReference" := "Booking Reference",
    "lastName" := "Last Name",
    "emailAddress" := "Email Address",
    "searchBooking" := "Search Booking",
    "whyChooseUs" := "Why Choose SkyVoyage?",
    "specialOffers" := "Special Offers & Deals",
    "testimonials" := "What Our Customers Say"
  ]

  /** The Hindi table. */
  const HindiTable: map<string, string> := map[
    "home" := "होम",
    "flights" := "उड़ानें",
    "manageBookings" := "बुकिंग प्रबंधित करें",
    "offers" := "ऑफर",
    "support" := "सहायता",
    "login" := "लॉगिन",
    "signup" := "साइन अप",
    "search" := "खोजें",
    "from" := "से",
    "to" := "तक",
    "departDate" := "प्रस्थान तिथि",
    "returnDate" := "वापसी तिथि",
    "passengers" := "यात्री",
    "cabinClass" := "केबिन श्रेणी",
    "searchFlights" := "उड़ानें खोजें",
    "Round Trip" := "आने-जाने का टिकट",
    "One Way" := "एकतरफा टिकट",
    "chatWithUs" := "हमसे चैट करें",
    "contactUs" := "संपर्क करें",
    "faqs" := "अक्सर पूछे जाने वाले प्रश्न",
    "findBooking" := "अपनी बुकिंग खोजें",
    "bookingReference" := "बुकिंग संदर्भ",
    "lastName" := "अंतिम नाम",
    "emailAddress" := "ईमेल पता",
    "searchBooking" := "बुकिंग खोजें",
    "whyChooseUs" := "स्काईवॉयेज क्यों चुनें?",
    "specialOffers" := "विशेष ऑफर और डील",
    "testimonials" := "हमारे ग्राहक क्या कहते हैं"
  ]

  /** The Urdu table. */
  const UrduTable: map<string, string> := map[
    "home" := "ہوم",
    "flights" := "پروازیں",
    "manageBookings" := "بکنگ منیج کریں",
    "offers" := "آفرز",
    "support" := "مدد",
    "login" := "لاگ ان",
    "signup" := "سائن اپ",
    "search" := "تلاش",
    "from" := "سے",
    "to" := "تک",
    "departDate" := "روانگی کی تاریخ",
    "returnDate" := "واپسی کی تاریخ",
    "passengers" := "مسافر",
    "cabinClass" := "کیبن کلاس",
    "searchFlights" := "پروازیں تلاش کریں",
    "Round Trip" := "آنا جانا",
    "One Way" := "ایک طرفہ",
    "chatWithUs" := "ہم سے بات کریں",
    "contactUs" := "ہم سے رابطہ کریں",
    "faqs" := "اکثر پوچھے گئے سوالات",
    "findBooking" := "اپنی بکنگ تلاش کریں",
    "bookingReference" := "بکنگ حوالہ",
    "lastName" := "آخری نام",
    "emailAddress" := "ای میل ایڈریس",
    "searchBooking" := "بکنگ تلاش کریں",
    "whyChooseUs" := "سکائی وویج کو کیوں چنیں؟",
    "specialOffers" := "خصوصی آفرز اور ڈیلز",
    "testimonials" := "ہمارے گاہک کیا کہتے ہیں"
  ]

  /** The Telugu table. */
  const TeluguTable: map<string, string> := map[
    "home" := "హోమ్",
    "flights" := "విమానాలు",
    "manageBookings" := "బుకింగ్\U{200C}లను నిర్వహించండి",
    "offers" := "ఆఫర్లు",
    "support" := "సహాయం",
    "login" := "లాగిన్",
    "signup" := "సైన్ అప్",
    "search" := "శోధించు",
    "from" := "నుండి",
    "to" := "వరకు",
    "departDate" := "నిష్క్రమణ తేదీ",
    "returnDate" := "తిరిగి వచ్చే తేదీ",
    "passengers" := "ప్రయాణికులు",
    "cabinClass" := "కేబిన్ తరగతి",
    "searchFlights" := "విమానాలను శోధించండి",
    "Round Trip" := "రౌండ్ ట్రిప్",
    "One Way" := "వన్ వే",
    "chatWithUs" := "మాతో చాట్ చేయండి",
    "contactUs" := "మమ్మల్ని సంప్రదించండి",
    "faqs" := "తరచుగా అడిగే ప్రశ్నలు",
    "findBooking" := "మీ బుకింగ్\U{200C}ను కనుగొనండి",
    "bookingReference" := "బుకింగ్ రిఫరెన్స్",
    "lastName" := "చివరి పేరు",
    "emailAddress" := "ఇమెయిల్ చిరునామా",
    "searchBooking" := "బుకింగ్ శోధించండి",
    "whyChooseUs" := "స్కైవోయేజ్\U{200C}ని ఎందుకు ఎంచుకోవాలి?",
    "specialOffers" := "ప్రత్యేక ఆఫర్లు మరియు డీల్స్",
    "testimonials" := "మా కస్టమర్లు ఏమంటున్నారు"
  ]

  function Table(l: Language): map<string, string>
  {
    match l
    case En => EnglishTable
    case Hi => HindiTable
    case Ur => UrduTable
    case Te => TeluguTable
  }

  /** `translations[language][key] || key`: a missing or empty translation falls back to the key. */
  function Translate(l: Language, key: string): (r: string)
    ensures key in Table(l) && Table(l)[key] != "" ==> r == Table(l)[key]
    ensures key !in Table(l) || Table(l)[key] == "" ==> r == key
  {
    if key in Table(l) && Table(l)[key] != "" then Table(l)[key] else key
  }

  /** All four tables translate the same keys. */
  lemma TablesShareKeys(l: Language)
    ensures Table(l).Keys == EnglishTable.Keys
  {
  }

  /** No table holds an empty translation, so the fallback only fires for keys no table knows. */
  lemma NoEmptyTranslation(l: Language, key: string)
    requires key in Table(l)
    ensures Table(l)[key] != ""
  {
  }

  /** A key every table knows is translated in every language; any other key is shown as itself in every language. */
  lemma TranslateTotal(l: Language, key: string)
    ensures key in EnglishTable ==> Translate(l, key) == Table(l)[key] && Translate(l, key) != ""
    ensures key !in EnglishTable ==> Translate(l, key) == key
  {
    TablesShareKeys(l);
    if key in Table(l) {
      NoEmptyTranslation(l, key);
    }
  }

  /** `getLanguageName`: each language's name, written in that language. */
  function LanguageName(l: Language): (r: string)
    ensures r != ""
  {
    match l
    case En => "English"
    case Hi => "हिन्दी"
    case Ur => "اردو"
    case Te => "తెలుగు"
  }

  /** The four names are pairwise different, so the selector can tell them apart. */
  lemma LanguageNamesDistinct(l1: Language, l2: Language)
    requires l1 != l2
    ensures LanguageName(l1) != LanguageName(l2)
  {
    assert LanguageName(l1)[0] != LanguageName(l2)[0];
  }

  /** Browser storage: string keys to string values. */
  type Storage = map<string, string>

  const StorageKey := "language"

  /** The startup effect: a saved code is adopted only if it names one of the four languages; otherwise English. */
  function StartupLanguage(storage: Storage): (r: Language)
    ensures StorageKey !in storage ==> r == En
    ensures StorageKey in storage && LanguageFromCode(storage[StorageKey]).Some? ==>
      LanguageCode(r) == storage[StorageKey]
    ensures StorageKey in storage && LanguageFromCode(storage[StorageKey]).None? ==> r == En
  {
    if StorageKey in storage && storage[StorageKey] != "" then
      match LanguageFromCode(storage[StorageKey])
      case Some(l) => l
      case None => En
    else En
  }

  /** What `setLanguage` stores is what the next startup restores, whatever else is in storage. */
  lemma SavedLanguageRestored(storage: Storage, l: Language)
    ensures StartupLanguage(storage[StorageKey := LanguageCode(l)]) == l
  {
    CodeRoundTrip(l);
  }

  /** `useLanguage`: the context when a provider is present, otherwise the error it throws. */
  function UseLanguage<C>(context: Option<C>): (r: Result<C, string>)
    ensures r.Success? <==> context.Some?
    ensures r.Success? ==> r.value == context.value
    ensures r.Failure? ==> r.error == "useLanguage must be used within a LanguageProvider"
  {
    match context
    case Some(c) => Success(c)
    case None => Failure("useLanguage must be used within a LanguageProvider")
  }

  class LanguageProviderState {
    var language: Language
    var storage: Storage

    /** The provider mounts in English over whatever storage holds. */
    constructor (saved: Storage)
      ensures language == En && storage == saved
    {
      language := En;
      storage := saved;
    }

    /** The mount effect: adopt the saved language when it is valid; storage is only read. */
    method RestoreSaved()
      modifies this
      ensures language == StartupLanguage(storage)
      ensures storage == old(storage)
    {
      language := En;
      if StorageKey in storage && storage[StorageKey] != "" {
        var saved := LanguageFromCode(storage[StorageKey]);
        if saved.Some? {
          language := saved.value;
        }
      }
    }

    /** `setLanguage`: the state and the stored code change together; no other storage entry changes. */
    method SetLanguage(l: Language)
      modifies this
      ensures language == l
      ensures storage == old(storage)[StorageKey := LanguageCode(l)]
      ensures StartupLanguage(storage) == l
    {
      language := l;
      storage := storage[StorageKey := LanguageCode(l)];
      SavedLanguageRestored(old(storage), l);
    }

    /** `t`: the lookup in the current language. */
    function T(key: string): (r: string)
      reads this
      ensures key !in EnglishTable ==> r == key
      ensures key in EnglishTable ==> r == Table(language)[key]
    {
      TranslateTotal(language, key);
      Translate(language, key)
    }
  }
}
