# CO2 climate simulator: a verified model of its behaviour

This project models the behavioural core of a small educational climate
web application written in TypeScript/React:

- **Temperature model** (`climate.dfy`, module `Climate`): the simulation panel maps
  a CO2 concentration in ppm to a projected global temperature
  `14 + (co2 - 280) * 0.01` degrees C and classifies it as Safe, Moderate,
  Concerning or Critical by four ordered, half-open thresholds. Temperatures are
  exact integer hundredths of a degree (`1400 + (co2 - 280)`), which is the value
  the panel shows with two decimals.
- **Temperature chart** (`chart.dfy`, module `Chart`): `GenerateData` sweeps 280..500
  ppm in steps of 10 and builds 23 samples, flagging as current the sample whose
  ppm is `Math.round(co2 / 10) * 10` (halves round up). The highlight line, the
  current reading and the tooltip's increase are modelled beside it.
- **NetLogo bridge** (`netlogo_integration.dfy`, `netlogo_model.dfy`, with the shared
  command text and status line in `netlogo_commands.dfy`): two components keep
  loaded/running/error state and send command strings to an embedded NetLogo
  simulation. Sending is an append to an `outbox` sequence, so each handler's
  contract says exactly which commands go out, in which order. CO2 levels are
  written into commands with `Decimal.IntToString` (`decimal.dfy`), which has a
  parser and a round-trip lemma.
- **Contact page** (`contact.dfy`): the four-field message form, its
  all-fields-filled validation with reset, and the single expanded team card.
- **Navigation bar** (`navbar.dfy`): the active-link test, the mobile menu toggle
  and the rule that hides the bar while scrolling down past 100 px.

`wrappers.dfy` holds the `Option` datatype used for JavaScript's null values.

The chart rounds the live level with `Math.round`, which rounds halves up,
so `NearestStep(425) == 430`.

## Model

| member | source | states |
|---|---|---|
| Climate.Temperature | src/components/SimulationPanel.tsx:12-13 | the integer hundredths equal 14 + (co2 - 280) * 0.01 degrees exactly, read over the reals |
| Climate.TemperatureAtBaseline | src/components/SimulationPanel.tsx:12-13 | 280 ppm gives the 14.00 baseline; 420 ppm gives 15.40 and 500 ppm gives 16.20 |
| Climate.TempIncrease | src/components/SimulationPanel.tsx:12-14 | the increase is (co2 - 280) hundredths; it is zero exactly at 280 ppm and non-negative from 280 ppm up |
| Climate.TemperatureStrictlyIncreasing | src/components/SimulationPanel.tsx:13 | temperature is strictly increasing in co2 |
| Climate.TemperaturePerHundredPpm | src/components/SimulationPanel.tsx:13 | every +100 ppm adds exactly one degree |
| Climate.GetSeverity | src/components/SimulationPanel.tsx:17-22 | the ordered if-chain gives Safe iff t < 15, Moderate iff 15 <= t < 16, Concerning iff 16 <= t < 17, Critical iff t >= 17; a boundary belongs to the higher class |
| Climate.SeverityMonotone | src/components/SimulationPanel.tsx:17-21 | a higher temperature never gives a lower class |
| Climate.Style | src/components/SimulationPanel.tsx:18-21 | each class's record carries its own label: "Safe", "Moderate", "Concerning" or "Critical", each label belonging to exactly one class |
| Climate.LabelsDistinct | src/components/SimulationPanel.tsx:18-21 | the four classes carry four distinct labels |
| Climate.PanelSeverity | src/components/SimulationPanel.tsx:13-24 | for every co2 the panel's label is "Safe" iff co2 < 380, "Moderate" iff 380 <= co2 < 480, "Concerning" iff 480 <= co2 < 580 and "Critical" iff co2 >= 580 |
| Climate.SliderSeverity | src/components/SimulationPanel.tsx:49-57 | for every slider value (280..500, step 5) the class is Safe below 380, Moderate on [380, 480), Concerning from 480; Critical is unreachable |
| Chart.NearestStep | src/components/TemperatureChart.tsx:20 | Math.round(co2/10)*10 is a multiple of 10 within (co2 - 5, co2 + 5], i.e. nearest with halves rounded up |
| Chart.HalvesRoundUp | src/components/TemperatureChart.tsx:20 | 425 rounds to 430 and 415 to 420 |
| Chart.GenerateData | src/components/TemperatureChart.tsx:13-24 | the loop returns 23 samples; sample i has ppm 280 + 10i, the panel's temperature at that ppm, and is current iff its ppm is NearestStep(co2) |
| Chart.ChartEndpoints | src/components/TemperatureChart.tsx:15-19 | the first sample is (280, 14.00) and the last is (500, 16.20) |
| Chart.ChartStrictlyIncreasing | src/components/TemperatureChart.tsx:15-16 | ppm and temperature both strictly increase along the samples |
| Chart.ExactlyOneCurrent | src/components/TemperatureChart.tsx:20 | exactly one sample (the one at NearestStep(co2)) is current iff 275 <= co2 <= 504, so for every slider value; none otherwise |
| Chart.Highlight | src/components/TemperatureChart.tsx:95 | the highlight line plots a sample exactly when its ppm is a multiple of 10 in (co2 - 5, co2 + 5], and then at the sample's temperature |
| Chart.HighlightMatchesCurrent | src/components/TemperatureChart.tsx:95 | the highlight line plots a point exactly at the sample flagged current, at its temperature |
| Chart.CurrentTemp | src/components/TemperatureChart.tsx:27 | the chart's current reading equals the panel's temperature, and its excess over 14 equals the panel's increase |
| Chart.TooltipIncrease | src/components/TemperatureChart.tsx:40 | for a sample built from the shared formula the increase is the panel's increase at its ppm; it is non-negative iff the temperature is at least 14 degrees |
| Chart.TooltipIncreaseNonNegative | src/components/TemperatureChart.tsx:40 | each sample's tooltip increase is its ppm - 280, never negative |
| Decimal.NatToString | src/components/NetLogoIntegration.tsx:81-85 | the rendering of a level is a non-empty string of digits without a leading zero |
| Decimal.IntToStringRoundTrip | src/components/NetLogoIntegration.tsx:81-85 | parsing the rendered level gives the level back |
| NetLogoCommands.SetCommand | src/components/NetLogoIntegration.tsx:80-86 | a `set <variable> ${value}` command read back for that variable yields exactly the value |
| NetLogoCommands.StatusText | src/components/NetLogoIntegration.tsx:299 | "Running" iff loaded and running, "Ready" iff loaded and not running, "Loading..." iff not loaded |
| NetLogoIntegration.IsNlogoName | src/components/NetLogoIntegration.tsx:35 | every accepted name is some stem followed by ".nlogo" |
| NetLogoIntegration.NlogoNameCharacterized | src/components/NetLogoIntegration.tsx:35 | any stem followed by ".nlogo" is accepted |
| NetLogoIntegration.Bridge.constructor | src/components/NetLogoIntegration.tsx:15-20 | starts on the Climate Change model URL, not loaded, not running, no error, no custom model or info, nothing sent |
| NetLogoIntegration.Bridge.Status | src/components/NetLogoIntegration.tsx:299 | the status line follows the loaded/running rule over the bridge's fields |
| NetLogoIntegration.Bridge.SendCommand | src/components/NetLogoIntegration.tsx:57-64 | a sent command is appended to the outbox |
| NetLogoIntegration.Bridge.SendAll | src/components/NetLogoIntegration.tsx:88-94 | sending each command of a list in turn appends the whole list, in order |
| NetLogoIntegration.Bridge.HandleFileUpload | src/components/NetLogoIntegration.tsx:33-41 | a present file named *.nlogo becomes the custom model and clears the error; otherwise the upload error is set and the custom model is unchanged |
| NetLogoIntegration.Bridge.LoadCustomModel | src/components/NetLogoIntegration.tsx:44-54 | no-op without a custom model; otherwise sets the "requires NetLogo Web hosting" error |
| NetLogoIntegration.Bridge.SyncCo2 | src/components/NetLogoIntegration.tsx:77-98 | while loaded, sends exactly `set co2-level v`, `set co2 v`, `set carbon-dioxide v`, `set greenhouse-gas v`, `set pollution v`, `update-display` in that order; sends nothing when not loaded |
| NetLogoIntegration.Bridge.HandlePlay | src/components/NetLogoIntegration.tsx:100-103 | sends "go" and sets running |
| NetLogoIntegration.Bridge.HandlePause | src/components/NetLogoIntegration.tsx:105-108 | sends "stop" and clears running |
| NetLogoIntegration.Bridge.TogglePlay | src/components/NetLogoIntegration.tsx:229 | the play/pause button sends "stop" when running and "go" otherwise, and flips running |
| NetLogoIntegration.Bridge.HandleReset | src/components/NetLogoIntegration.tsx:110-114 | sends "reset-ticks" then "setup" and clears running |
| NetLogoIntegration.Bridge.HandleSetup | src/components/NetLogoIntegration.tsx:116-119 | sends "setup" and clears running |
| NetLogoIntegration.Bridge.HandleLoad | src/components/NetLogoIntegration.tsx:121-124 | sets loaded and clears the error |
| NetLogoIntegration.Bridge.HandleError | src/components/NetLogoIntegration.tsx:126-129 | sets the load-failure message and clears loaded |
| NetLogoIntegration.Bridge.HandleModelSelect | src/components/NetLogoIntegration.tsx:131-136 | sets the URL and info to the chosen model and clears loaded and the error |
| NetLogoIntegration.Bridge.SetModelUrl | src/components/NetLogoIntegration.tsx:203-205 | the URL field replaces the model URL |
| NetLogoModel.Embed.constructor | src/components/NetLogoModel.tsx:14-22 | starts not loaded, not running, with no error and nothing sent, on the given model URL, by default the Climate Change model |
| NetLogoModel.Embed.Status | src/components/NetLogoModel.tsx:169 | "Running" / "Ready" / "Loading..." by the same loaded/running rule |
| NetLogoModel.Embed.SendCommand | src/components/NetLogoModel.tsx:26-33 | a sent command is appended to the outbox |
| NetLogoModel.Embed.SyncCo2 | src/components/NetLogoModel.tsx:46-52 | while loaded, sends exactly `set co2-level v` then `update-display`; nothing when not loaded |
| NetLogoModel.Embed.HandlePlay | src/components/NetLogoModel.tsx:54-57 | sends "go" and sets running |
| NetLogoModel.Embed.HandlePause | src/components/NetLogoModel.tsx:59-62 | sends "stop" and clears running |
| NetLogoModel.Embed.TogglePlay | src/components/NetLogoModel.tsx:114 | the play/pause button sends "stop" when running and "go" otherwise, and flips running |
| NetLogoModel.Embed.HandleReset | src/components/NetLogoModel.tsx:64-68 | sends "reset-ticks" then "setup" and leaves running false |
| NetLogoModel.Embed.HandleSetup | src/components/NetLogoModel.tsx:70-73 | sends "setup" and leaves running false |
| NetLogoModel.Embed.HandleLoad | src/components/NetLogoModel.tsx:75-78 | sets loaded and clears the error |
| NetLogoModel.Embed.HandleError | src/components/NetLogoModel.tsx:80-83 | sets the load-failure message and clears loaded |
| Contact.FormData.With | src/pages/Contact.tsx:20-23 | the named field takes the new value and the other three are unchanged |
| Contact.ToggleCard | src/pages/Contact.tsx:301 | clicking the expanded card collapses to none; clicking any other card makes it the expanded one |
| Contact.AtMostOneExpanded | src/pages/Contact.tsx:294 | at most one card is expanded at a time |
| Contact.ToggleCardTwice | src/pages/Contact.tsx:301 | from any state other than this card expanded, two clicks on a card leave none expanded |
| Contact.AllFilled | src/pages/Contact.tsx:27 | the four truthiness checks hold exactly when every field of the form is non-empty |
| Contact.EmptyFormRejected | src/pages/Contact.tsx:27 | the empty form, and any form with an empty field, fails validation |
| Contact.ContactPage.constructor | src/pages/Contact.tsx:12-17 | the form starts with four empty fields and no card expanded |
| Contact.ContactPage.HandleInputChange | src/pages/Contact.tsx:19-24 | only the field named by the input changes |
| Contact.ContactPage.HandleSubmit | src/pages/Contact.tsx:26-34 | accepted iff all four fields are non-empty; on acceptance the form resets to empty, on rejection it is unchanged |
| Contact.ContactPage.ClickCard | src/pages/Contact.tsx:301 | the expanded card follows ToggleCard |
| Contact.SubmitTwice | src/pages/Contact.tsx:26-30 | right after an accepted submit, a second submit is rejected |
| Navbar.HidesOnScroll | src/components/Navbar.tsx:24 | the bar hides exactly when y exceeds both the last position and 100, i.e. their maximum |
| Navbar.ScrollRule | src/components/Navbar.tsx:24-28 | the bar hides iff y > lastScrollY and y > 100; it shows at y <= 100 or when not moving down |
| Navbar.NavbarState.IsActive | src/components/Navbar.tsx:12 | a path is active iff it matches the current path character for character, with the same length |
| Navbar.AtMostOneActive | src/components/Navbar.tsx:12 | isActive compares the path exactly, so at most one of the four links is active |
| Navbar.NavbarState.constructor | src/components/Navbar.tsx:8-10 | menu closed, bar shown, last scroll position 0 |
| Navbar.NavbarState.ToggleMobileMenu | src/components/Navbar.tsx:14-16 | the menu flag is negated |
| Navbar.ToggleTwice | src/components/Navbar.tsx:14-16 | two toggles restore the menu's state |
| Navbar.NavbarState.HandleScroll | src/components/Navbar.tsx:20-31 | after a scroll to y the bar is hidden iff y > old lastScrollY and y > 100, and lastScrollY becomes y |
| Navbar.NavbarState.CloseMobileMenu | src/components/Navbar.tsx:120 | clicking a mobile menu link closes the menu |

## Left out

- Rendering, layout, styling, animation and static page content (team data, informational pages).
- Delivery of commands: `postMessage` into the sandboxed frame is modelled as an append to `outbox`. The check for a missing frame window and `window.open` are not modelled.
- `sendReporter` is never called and posts a callback across a frame boundary, so it is not modelled.
- The frame's load and error events are inputs. Here they are the methods `HandleLoad` and `HandleError`.
- When React runs the CO2 effect is not modelled. It runs after a change of co2 or of the loaded flag, for example right after `HandleLoad`. `SyncCo2` models one run of the effect, given the level.
- `useState` batching, listener registration and re-registration, and the passive scroll listener are not modelled.
- Floating point: temperatures are exact hundredths of a degree. IEEE rounding, `toFixed`/`parseFloat` and the formatting of the displayed numbers are not modelled.
- Climate.Temperature: co2 is an `int`, because the slider produces whole ppm values. Fractional levels are not modelled.
- Chart.NearestStep: co2 is a whole number of ppm, as the slider produces. Fractional levels are not modelled.
- `${co2}` renders a level with `Decimal.IntToString`. JavaScript's formatting of fractional numbers is not modelled.
- `alert` and `console.log` in the contact form are side effects. `HandleSubmit` returns whether the submission was accepted instead.
- The `catch` branches in the NetLogo integration panel cannot be reached, so they are not modelled.
- Navbar.NavbarState.HandleScroll: scroll offsets are whole pixels; fractional `window.scrollY` values are not modelled.
- Navbar.NavbarState.constructor: the router owns the current path, so it is fixed when the bar is built; navigation is not modelled.
