/**
 * The quick-profile creation payload (buid_qbp_payload in google_scrapping.py):
 * browser and OS selection, the proxy settings and a fixed set of fingerprint flags.
 */
module Profile {
  import opened Wrappers
  import opened Proxy

  /** The fingerprint-masking flags of the profile. */
  datatype Flag =
    | AudioMasking | CanvasNoise | FontsMasking | GeolocationMasking | GeolocationPopup
    | GraphicsMasking | GraphicsNoise | LocalizationMasking | MediaDevicesMasking
    | NavigatorMasking | PortsMasking | ProxyMasking | QuicMode | ScreenMasking
    | StartupBehavior | TimezoneMasking | WebrtcMasking

  /** The values the script gives the flags. */
  datatype FlagMode = Natural | Mask | Prompt | Custom

  /** The setting of each flag in the payload. */
  function FlagSetting(f: Flag): FlagMode
  {
    match f
    case AudioMasking => Natural
    case CanvasNoise => Natural
    case FontsMasking => Mask
    case GeolocationMasking => Mask
    case GeolocationPopup => Prompt
    case GraphicsMasking => Mask
    case GraphicsNoise => Mask
    case LocalizationMasking => Mask
    case MediaDevicesMasking => Natural
    case NavigatorMasking => Mask
    case PortsMasking => Mask
    case ProxyMasking => Custom
    case QuicMode => Natural
    case ScreenMasking => Natural
    case StartupBehavior => Custom
    case TimezoneMasking => Mask
    case WebrtcMasking => Mask
  }

  /** The automation framework the profile is started for ("selenium"). */
  datatype Automation = Selenium

  datatype Parameters = Parameters(
    proxy: ProxyPayload,
    customStartUrls: seq<string>,
    fingerprint: map<string, string>,
    flags: Flag -> FlagMode)

  datatype QbpPayload = QbpPayload(
    browserType: string,
    osType: string,
    isHeadless: bool,
    automation: Automation,
    parameters: Parameters)

  const StartUrl: string := "https://www.multilogin.com"

  /**
   * buid_qbp_payload: the proxy's host, port, username and password are copied
   * unchanged, its type is the configured protocol; the profile is not headless and
   * is driven through Selenium.
   */
  function BuildQbpPayload(proxy: ProxyPayload, browserType: string, osType: string, protocol: string): (r: QbpPayload)
    ensures r.browserType == browserType && r.osType == osType
    ensures !r.isHeadless && r.automation == Selenium
    ensures r.parameters.proxy == ProxyPayload(protocol, proxy.host, proxy.port, proxy.username, proxy.password)
    ensures r.parameters.customStartUrls == [StartUrl]
    ensures r.parameters.fingerprint == map[] && r.parameters.flags == FlagSetting
  {
    QbpPayload(
      browserType, osType, false, Selenium,
      Parameters(proxy.(kind := protocol), [StartUrl], map[], FlagSetting))
  }

  /**
   * Parsing a proxy string and building the profile payload from it, under the same
   * protocol, puts exactly the parsed descriptor into the profile.
   */
  lemma ProfileCarriesParsedProxy(proxyItem: string, protocol: string, browserType: string, osType: string)
    requires BuildProxyPayload(Some(proxyItem), protocol).Some?
    ensures var p := BuildProxyPayload(Some(proxyItem), protocol).value;
      var parts := Split(proxyItem, Colon);
      BuildQbpPayload(p, browserType, osType, protocol).parameters.proxy == p &&
      p == ProxyPayload(protocol, parts[0], ParseNat(parts[1]).value, parts[2], parts[3])
  {
  }
}
