/** The translation provider of frontend/src/context/LanguageContext.jsx:
    the two string tables, the lookup `t` with its fall-back to the key,
    `changeLanguage`, and the preference read on mount. The document's
    `dir` and `lang` attributes and the `localStorage` entry are fields of
    the provider. */
module Language {
  import opened Wrappers

  const English: map<string, string> := map[
    "appName" := "TRACE LENS",
    "title" := "See Truth,",
    "titleLine2" := "Identify Source",
    "tagline" := "Professional Investigation Platform",
    "description" := "Comprehensive source verification and authenticity analysis platform designed for professionals who demand accuracy and reliability in their investigations.",
    "login" := "Login to Account",
    "email" := "Email Address",
    "emailPlaceholder" := "Enter your email address",
    "password" := "Password",
    "passwordPlaceholder" := "Enter your password",
    "mobile" := "Mobile Number",
    "mobilePlaceholder" := "Enter 10-digit mobile number",
    "otp" := "Enter OTP",
    "otpPlaceholder" := "Enter 6-digit OTP",
    "sendOtp" := "Send OTP",
    "otpSent" := "OTP Sent",
    "loginButton" := "Login",
    "dashboard" := "Dashboard",
    "welcome" := "Welcome to Trace Lens",
    "uploadImages" := "Upload Images",
    "faceDetection" := "Face Detection Results",
    "confidence" := "Confidence",
    "noFacesDetected" := "No faces detected in this image",
    "facesDetected" := "faces detected",
    "loading" := "Loading...",
    "logout" := "Logout",
    "close" := "Close",
    "cancel" := "Cancel",
    "confirm" := "Confirm",
    "error" := "Error",
    "success" := "Success",
    "emailRequired" := "Please enter a valid email address",
    "passwordRequired" := "Password is required",
    "mobileRequired" := "Please enter a valid 10-digit mobile number",
    "otpRequired" := "Please enter the OTP sent to your mobile",
    "loginFailed" := "Login failed. Please check your credentials.",
    "networkError" := "Network error. Please check your connection.",
    "otpSentSuccess" := "OTP sent successfully!",
    "loginSuccess" := "Login successful!",
    "uploadSuccess" := "Images uploaded successfully!",
    "detectionComplete" := "Face detection completed!"
  ]

  const Hindi: map<string, string> := map[
    "appName" := "ट्रेस लेंस",
    "title" := "सत्य देखें,",
    "titleLine2" := "स्रोत पहचानें",
    "tagline" := "व्यावसायिक जांच मंच",
    "description" := "व्यापक स्रोत सत्यापन और प्रामाणिकता विश्लेषण मंच जो उन पेशेवरों के लिए डिज़ाइन किया गया है जो अपनी जांच में सटीकता और विश्वसनीयता की मांग करते हैं।",
    "login" := "खाते में लॉगिन करें",
    "email" := "ईमेल पता",
    "emailPlaceholder" := "अपना ईमेल पता दर्ज करें",
    "password" := "पासवर्ड",
    "passwordPlaceholder" := "अपना पासवर्ड दर्ज करें",
    "mobile" := "मोबाइल नंबर",
    "mobilePlaceholder" := "10 अंकों का मोबाइल नंबर दर्ज करें",
    "otp" := "OTP दर्ज करें",
    "otpPlaceholder" := "6 अंकों का OTP दर्ज करें",
    "sendOtp" := "OTP भेजें",
    "otpSent" := "OTP भेजा गया",
    "loginButton" := "लॉगिन",
    "dashboard" := "डैशबोर्ड",
    "welcome" := "ट्रेस लेंस में आपका स्वागत है",
    "uploadImages" := "चित्र अपलोड करें",
    "faceDetection" := "चेहरा पहचान परिणाम",
    "confidence" := "विश्वास",
    "noFacesDetected" := "इस चित्र में कोई चेहरा नहीं मिला",
    "facesDetected" := "चेहरे मिले",
    "loading" := "लोड हो रहा है...",
    "logout" := "लॉगआउट",
    "close" := "बंद करें",
    "cancel" := "रद्द करें",
    "confirm" := "पुष्टि करें",
    "error" := "त्रुटि",
    "success" := "सफलता",
    "emailRequired" := "कृपया एक वैध ईमेल पता दर्ज करें",
    "passwordRequired" := "पासवर्ड आवश्यक है",
    "mobileRequired" := "कृपया एक वैध 10 अंकों का मोबाइल नंबर दर्ज करें",
    "otpRequired" := "कृपया अपने मोबाइल पर भेजा गया OTP दर्ज करें",
    "loginFailed" := "लॉगिन असफल। कृपया अपनी जानकारी जांचें।",
    "networkError" := "नेटवर्क त्रुटि। कृपया अपना कनेक्शन जांचें।",
    "otpSentSuccess" := "OTP सफलतापूर्वक भेजा गया!",
    "loginSuccess" := "लॉगिन सफल!",
    "uploadSuccess" := "चित्र सफलतापूर्वक अपलोड किए गए!",
    "detectionComplete" := "चेहरा पहचान पूर्ण!"
  ]

  /** The languages that have a table: `Object.keys(translations)`. */
  const Languages: set<string> := {"english", "hindi"}

  /** The properties every object literal inherits from `Object.prototype`.
      `obj[name]` finds them on any table, and on `translations` itself, as
      built-in functions (or, for `__proto__`, the prototype object). */
  const ObjectPrototypeNames: set<string> := {
    "constructor", "hasOwnProperty", "isPrototypeOf", "propertyIsEnumerable",
    "toLocaleString", "toString", "valueOf", "__defineGetter__",
    "__defineSetter__", "__lookupGetter__", "__lookupSetter__", "__proto__"
  }

  /** `translations[language]` is truthy: the language has a table, or it
      names an inherited property. */
  predicate Accepts(language: string) {
    language in Languages || language in ObjectPrototypeNames
  }

  /** The string table of a language that has one. */
  function TableOf(language: string): map<string, string>
    requires language in Languages
  {
    if language == "hindi" then Hindi else English
  }
  const DefaultLanguage := "english"

  /** What `t` returns: a string, a built-in value found through
      `Object.prototype` (a function, or the prototype object itself for
      `__proto__` on a table; never a string, and truthy), or, when the
      current language names a built-in function rather than a table,
      `translations[owner][key] || key` as the JavaScript host resolves it. */
  datatype Text = Str(s: string) | Builtin(name: string) | HostValue(owner: string, key: string)

  /** `table[key] || key` on an object literal: an own non-empty string,
      else an inherited built-in, else the key itself. */
  function Lookup(table: map<string, string>, key: string): (r: Text)
    ensures key in table && table[key] != "" ==> r == Str(table[key])
    ensures r.Builtin? <==> key !in table && key in ObjectPrototypeNames
    ensures r.Builtin? ==> r.name == key
    ensures !r.HostValue?
    ensures key !in table && key !in ObjectPrototypeNames ==> r == Str(key)
    ensures r.Str? ==> r.s == key || (key in table && r.s == table[key])
  {
    if key in table && table[key] != "" then Str(table[key])
    else if key !in table && key in ObjectPrototypeNames then Builtin(key)
    else Str(key)
  }

  /** Both tables define the same keys. */
  lemma SameKeys()
    ensures English.Keys == Hindi.Keys
  {
  }

  /** No string in either table is empty. */
  lemma EnglishNonEmpty(key: string)
    requires key in English
    ensures English[key] != ""
  {
  }

  lemma HindiNonEmpty(key: string)
    requires key in Hindi
    ensures Hindi[key] != ""
  {
  }

  /** In either language, `t` gives the table's string exactly for the keys
      of the tables, a built-in for the inherited names, and the key itself
      otherwise; so switching language never turns a translated key into a
      bare one. */
  lemma LookupInEitherLanguage(language: string, key: string)
    requires language in Languages
    ensures key in English ==> Lookup(TableOf(language), key) == Str(TableOf(language)[key])
    ensures key !in English && key in ObjectPrototypeNames ==> Lookup(TableOf(language), key) == Builtin(key)
    ensures key !in English && key !in ObjectPrototypeNames ==> Lookup(TableOf(language), key) == Str(key)
  {
    SameKeys();
    if key in English {
      if language == "hindi" { HindiNonEmpty(key); } else { EnglishNonEmpty(key); }
    }
  }

  /** `t('toString')` is not text: no table defines it, so it is the
      inherited function. */
  lemma InheritedKeyIsBuiltin(language: string)
    requires language in Languages
    ensures Lookup(TableOf(language), "toString") == Builtin("toString")
  {
    assert "toString" !in English;
    LookupInEitherLanguage(language, "toString");
  }

  /** The text direction written to the document for a right-to-left flag. */
  function DirAttribute(rtl: bool): string {
    if rtl then "rtl" else "ltr"
  }

  /** The `dir` that `changeLanguage(language)` writes. As written it reads
      `isRTL` from before the change (`readsStaleFlag`); the corrected
      handler uses the new language. */
  function WrittenDir(previousRtl: bool, language: string, readsStaleFlag: bool): string {
    DirAttribute(if readsStaleFlag then previousRtl else language == "hindi")
  }

  /** As written, the direction lags one change behind: switching from
      English to Hindi writes `ltr` next to `lang="hi"`, and switching back
      writes `rtl` next to `lang="en"`. */
  lemma AsWrittenDirLags(previousRtl: bool, language: string)
    ensures WrittenDir(previousRtl, language, true) == DirAttribute(previousRtl)
    ensures WrittenDir(false, "hindi", true) == "ltr" && WrittenDir(true, "english", true) == "rtl"
  {
  }

  /** Corrected, the direction is `rtl` exactly for Hindi, in step with the
      `lang` attribute and the new `isRTL`. */
  lemma CorrectedDirFollowsLanguage(previousRtl: bool, language: string)
    ensures WrittenDir(previousRtl, language, false) == "rtl" <==> language == "hindi"
    ensures WrittenDir(previousRtl, language, false) == DirAttribute(language == "hindi")
  {
  }

  class LanguageProvider {
    var currentLanguage: string
    var isRTL: bool
    /** The preference stored in the browser under 'preferred-language'. */
    var saved: Option<string>
    /** The `dir` and `lang` attributes of the document element, once
        written. */
    var dir: Option<string>
    var lang: Option<string>

    predicate Valid()
      reads this
    {
      Accepts(currentLanguage) && isRTL == (currentLanguage == "hindi")
    }

    /** Mounting with the stored preference: it is applied only when
        `translations` answers for it, a table or an inherited name, and then
        `isRTL` follows it. */
    constructor (stored: Option<string>)
      ensures Valid() && saved == stored && dir == None && lang == None
      ensures stored.Some? && Accepts(stored.value) ==> currentLanguage == stored.value
      ensures !(stored.Some? && Accepts(stored.value)) ==> currentLanguage == DefaultLanguage
    {
      currentLanguage := DefaultLanguage;
      isRTL := false;
      saved := stored;
      dir := None;
      lang := None;
      new;
      if stored.Some? && stored.value != "" && Accepts(stored.value) {
        currentLanguage := stored.value;
        isRTL := stored.value == "hindi";
      }
    }

    /** `t(key)`. Under `__proto__` the "table" is `Object.prototype`, whose
        own properties are the inherited names; its own `__proto__` is
        `null`, which is falsy, so that key falls back to itself. Under any
        other inherited name the "table" is a built-in function, left to the
        host. */
    function T(key: string): (r: Text)
      reads this
      requires Valid()
      ensures currentLanguage in Languages ==> r == Lookup(TableOf(currentLanguage), key)
      ensures currentLanguage == "__proto__" ==>
        r == (if key in ObjectPrototypeNames && key != "__proto__" then Builtin(key) else Str(key))
      ensures r.HostValue? <==> currentLanguage !in Languages && currentLanguage != "__proto__"
    {
      if currentLanguage in Languages then Lookup(TableOf(currentLanguage), key)
      else if currentLanguage == "__proto__" then
        (if key != "__proto__" then Lookup(map[], key) else Str(key))
      else HostValue(currentLanguage, key)
    }

    /** `changeLanguage(language)`: nothing happens for a language that
        `translations` does not answer for; otherwise the language and `isRTL` follow it, the choice is
        stored, and the document attributes are written. */
    method ChangeLanguage(language: string, readsStaleFlag: bool)
      requires Valid()
      modifies this
      ensures Valid()
      ensures !Accepts(language) ==>
        currentLanguage == old(currentLanguage) && isRTL == old(isRTL)
        && saved == old(saved) && dir == old(dir) && lang == old(lang)
      ensures Accepts(language) ==>
        currentLanguage == language && isRTL == (language == "hindi") && saved == Some(language)
        && dir == Some(WrittenDir(old(isRTL), language, readsStaleFlag))
        && lang == Some(if language == "hindi" then "hi" else "en")
    {
      if Accepts(language) {
        var previousRtl := isRTL;
        currentLanguage := language;
        isRTL := language == "hindi";
        saved := Some(language);
        dir := Some(WrittenDir(previousRtl, language, readsStaleFlag));
        lang := Some(if language == "hindi" then "hi" else "en");
      }
    }
  }
}
