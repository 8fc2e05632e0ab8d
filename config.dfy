/** The shared crawler constants of `CONFIG` (src/config/constants.js). */
module Config {

  /** `CONFIG.MISSAV_URLS`: the listing pages, tried in this order. */
  const MissavUrls := [
    "https://missav.ws/dm13/vi", "https://missav.ws/dm18/vi", "https://missav.ws/dm20/vi",
    "https://missav.ws/vi", "https://missav.ws/dm18/vi/new", "https://missav.ws/dm18/vi/release",
    "https://missav.ws/vi/new", "https://missav.ws/dm13/vi/new", "https://missav.ws/vi/release"
  ]

  /** `CONFIG.VIDEO_SELECTORS`: the selectors for video links, in this order. */
  const VideoSelectors := [
    "a[href*=\"/vi/\"][href*=\"-\"]", "a[href*=\"/dm18/vi/\"][href*=\"-\"]",
    "a[href*=\"/dm13/vi/\"][href*=\"-\"]", "a[href*=\"fc2-ppv-\"]", ".card a[href*=\"/vi/\"]",
    ".group a[href*=\"/vi/\"]", ".movie-box a", ".thumbnail", ".item a[href*=\"/vi/\"]",
    ".col a[href*=\"/vi/\"]", "a[href*=\"missav.ws\"][href*=\"-\"]"
  ]
}
