/**
 * The settings tab: a key/value record of credentials and general options,
 * edited one key at a time, and a per-platform connection status that a
 * "Test Connection" button moves from idle to testing and then to success
 * or error.
 *
 * The connection test itself is abstracted: the two-second delay is dropped,
 * the probe of the text-generation server is represented by its outcome, and
 * an exception escaping the outer `try` by a flag.
 */
module SettingsTab {
  import opened Options

  datatype SettingValue = Text(text: string) | Flag(flag: bool)

  datatype ConnectionStatus = Idle | Testing | Success | Error

  /** What the probe of the text-generation server's tag list came to. */
  datatype ProbeOutcome = ResponseOk | ResponseNotOk | FetchThrew

  datatype Icon = Spinner | CheckCircle | XCircle

  const Ollama: string := "ollama"

  /** The platforms with a connection status, in the order the overview lists them. */
  const Platforms: seq<string> := ["youtube", "facebook", "instagram", "pinterest", "wordpress", "ollama"]

  function InitialSettings(): map<string, SettingValue>
  {
    map[
      "ollamaUrl" := Text("https://b3ab5420ac68.ngrok-free.app"),
      "ollamaModel" := Text("gemma3:1b"),
      "youtubeApiKey" := Text(""),
      "youtubeClientId" := Text(""),
      "youtubeClientSecret" := Text(""),
      "youtubeChannelId" := Text(""),
      "youtubeAccessToken" := Text(""),
      "youtubeRefreshToken" := Text(""),
      "facebookAppId" := Text(""),
      "facebookAppSecret" := Text(""),
      "facebookAccessToken" := Text(""),
      "facebookPageId" := Text(""),
      "instagramAppId" := Text(""),
      "instagramAppSecret" := Text(""),
      "instagramAccessToken" := Text(""),
      "instagramBusinessAccountId" := Text(""),
      "pinterestAppId" := Text(""),
      "pinterestAppSecret" := Text(""),
      "pinterestAccessToken" := Text(""),
      "pinterestBoardId" := Text(""),
      "wordpressUrl" := Text(""),
      "wordpressUsername" := Text(""),
      "wordpressPassword" := Text(""),
      "wordpressApplicationPassword" := Text(""),
      "defaultScheduleTime" := Text("10:00"),
      "timeZone" := Text("UTC"),
      "notifications" := Flag(true),
      "autoPublish" := Flag(false)
    ]
  }

  function InitialConnectionStatus(): map<string, ConnectionStatus>
  {
    map[
      "youtube" := Idle,
      "facebook" := Idle,
      "instagram" := Idle,
      "pinterest" := Idle,
      "wordpress" := Idle,
      "ollama" := Idle
    ]
  }

  /** Six platforms, every one of them not yet tested. */
  lemma InitialConnectionStatusShape()
    ensures InitialConnectionStatus().Keys == set p | p in Platforms
    ensures |InitialConnectionStatus().Keys| == 6
    ensures forall p :: p in InitialConnectionStatus() ==> InitialConnectionStatus()[p] == Idle
  {
    var s1: set<string> := {"youtube"};
    var s2 := s1 + {"facebook"};
    var s3 := s2 + {"instagram"};
    var s4 := s3 + {"pinterest"};
    var s5 := s4 + {"wordpress"};
    var s6 := s5 + {"ollama"};
    assert "facebook"[0] == 'f' && "instagram"[0] == 'i' && "pinterest"[0] == 'p';
    assert "wordpress"[0] == 'w' && "ollama"[0] == 'o' && "youtube"[0] == 'y';
    assert |s2| == 2 && |s3| == 3 && |s4| == 4 && |s5| == 5 && |s6| == 6;
    assert InitialConnectionStatus().Keys == s6;
  }

  /** `{...settings, [key]: value}`: the key now holds the value and every
      other key keeps what it had; a key new to the record is added. */
  function WithSetting(settings: map<string, SettingValue>, key: string, value: SettingValue): (r: map<string, SettingValue>)
    ensures r.Keys == settings.Keys + {key}
    ensures r[key] == value
    ensures forall k :: k in settings && k != key ==> r[k] == settings[k]
  {
    settings[key := value]
  }

  /** The status a test ends in once the delay is over. Only the
      text-generation server is really probed; a response that is not ok and
      a fetch that throws are both swallowed, and the test falls through to
      the success reported for every other platform. Only an exception that
      escapes the outer `try` gives an error. */
  function TestResult(platform: string, probe: ProbeOutcome, escaped: bool): ConnectionStatus
  {
    if escaped then Error
    else if platform == Ollama && probe == ResponseOk then Success
    else Success
  }

  /** A completed test succeeds on every platform, whatever the probe did,
      and fails exactly when an exception escaped the outer `try`. */
  lemma TestResultCases(platform: string, probe: ProbeOutcome, escaped: bool)
    ensures TestResult(platform, probe, escaped) == Success <==> !escaped
    ensures TestResult(platform, probe, escaped) == Error <==> escaped
    ensures TestResult(platform, probe, escaped) != Idle && TestResult(platform, probe, escaped) != Testing
  {
  }

  /** The test button is disabled while its platform is being tested; a
      platform without a status reads as `undefined`, which is not 'testing'. */
  function CanStartTest(status: map<string, ConnectionStatus>, platform: string): (b: bool)
  {
    !(platform in status && status[platform] == Testing)
  }

  /** The icon beside a status; `None` for the status of a key that is absent. */
  function ConnectionIcon(status: Option<ConnectionStatus>): Option<Icon>
  {
    match status
    case Some(Testing) => Some(Spinner)
    case Some(Success) => Some(CheckCircle)
    case Some(Error) => Some(XCircle)
    case _ => None
  }

  /** No icon exactly for "idle" or an unknown status; each other status has its own icon. */
  lemma ConnectionIconCases(status: Option<ConnectionStatus>)
    ensures ConnectionIcon(status) == None <==> status == None || status == Some(Idle)
    ensures forall s, t :: ConnectionIcon(Some(s)) == ConnectionIcon(Some(t)) && ConnectionIcon(Some(s)) != None ==> s == t
  {
  }

  function StatusName(s: ConnectionStatus): string
  {
    match s
    case Idle => "idle"
    case Testing => "testing"
    case Success => "success"
    case Error => "error"
  }

  /** The overview text under a platform: "Not tested" for idle, the status name otherwise. */
  function StatusLabel(s: ConnectionStatus): string
  {
    if s == Idle then "Not tested" else StatusName(s)
  }

  /** The label tells every status apart, and reads "Not tested" exactly when idle. */
  lemma StatusLabelCases(s: ConnectionStatus, t: ConnectionStatus)
    ensures StatusLabel(s) == "Not tested" <==> s == Idle
    ensures s != Idle ==> StatusLabel(s) == StatusName(s)
    ensures StatusLabel(s) == StatusLabel(t) ==> s == t
  {
  }

  /** The state of the settings tab. */
  class SettingsPanel {
    var settings: map<string, SettingValue>
    var connectionStatus: map<string, ConnectionStatus>

    /** Every platform of the overview keeps a status. */
    ghost predicate Valid()
      reads this
    {
      forall p :: p in Platforms ==> p in connectionStatus
    }

    constructor ()
      ensures Valid()
      ensures settings == InitialSettings()
      ensures connectionStatus == InitialConnectionStatus()
    {
      settings := InitialSettings();
      connectionStatus := InitialConnectionStatus();
    }

    /** One input changed: only that key of the record changes. */
    method HandleSettingChange(key: string, value: SettingValue)
      requires Valid()
      modifies this`settings
      ensures Valid()
      ensures settings == WithSetting(old(settings), key, value)
      ensures forall k :: k in old(settings) && k != key ==> settings[k] == old(settings)[k]
    {
      settings := WithSetting(settings, key, value);
    }

    /** The first step of a test: the platform reads "testing", the others keep theirs. */
    method BeginTest(platform: string)
      requires Valid()
      modifies this`connectionStatus
      ensures Valid()
      ensures connectionStatus == old(connectionStatus)[platform := Testing]
      ensures forall p :: p in old(connectionStatus) && p != platform ==> connectionStatus[p] == old(connectionStatus)[p]
    {
      connectionStatus := connectionStatus[platform := Testing];
    }

    /** The last step of a test, after the delay and the probe. Other tests may
        have run in between; this one writes only its own platform. */
    method FinishTest(platform: string, probe: ProbeOutcome, escaped: bool)
      requires Valid()
      modifies this`connectionStatus
      ensures Valid()
      ensures connectionStatus == old(connectionStatus)[platform := TestResult(platform, probe, escaped)]
      ensures connectionStatus[platform] == (if escaped then Error else Success)
    {
      TestResultCases(platform, probe, escaped);
      connectionStatus := connectionStatus[platform := TestResult(platform, probe, escaped)];
    }

    /** A click on a platform's "Test Connection" button: nothing happens while
        that platform is being tested, otherwise its test begins. */
    method ClickTestButton(platform: string) returns (started: bool)
      requires Valid()
      modifies this`connectionStatus
      ensures Valid()
      ensures started == CanStartTest(old(connectionStatus), platform)
      ensures started ==> connectionStatus == old(connectionStatus)[platform := Testing]
      ensures !started ==> connectionStatus == old(connectionStatus)
    {
      started := CanStartTest(connectionStatus, platform);
      if started {
        BeginTest(platform);
      }
    }
  }
}
