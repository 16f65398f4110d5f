# AquaSmart water-balance projection and SABESP lookup, in Dafny

This project models the decision logic of the AquaSmart dashboards.

**Janaúba dashboard (module `WaterBalance`).** Daily inflow is rainfall times 80 m³/mm. The reservoir level series is the running sum of inflow minus consumption on top of 500,000 m³, with each entry clipped below at zero. The trailing mean inflow and mean consumption are taken over the last seven days, or over every day when there are fewer. Their difference is the daily balance. When the balance is negative, the days of supply left are the current level divided by the daily loss. Otherwise the sentinel 999 is reported. The banner is a warning exactly when fewer than 30 days remain. Quantities are exact `real`s. The simulated rainfall and consumption series are inputs to `Project`.

**São Paulo dashboard (module `SabespLookup`).** The SABESP feed is a list of named systems. The panel shows the `data` readings of the first entry named "Cantareira". When no entry has that name, `next` raises, and the panel shows the error banner instead of the metrics. `FirstIndex` models the generator scan consumed by `next`. `None` stands for the raised `StopIteration`, and `LookupError` stands for the banner.

The level series follows the code in `aquasmart_app.py:26`, which clips the cumulative sum. A deficit is therefore carried forward: once the running total is below zero, later surplus days first pay the deficit back before the level rises again. It is not a per-day floor that forgets the deficit. `DeficitCarriedForward` states the difference. The code also has no date-order validation and no error type for an empty or unsorted series, so neither is modelled. An empty series has no mean, so `Project` requires at least one day.

## Model

| member | source | states |
|---|---|---|
| `WaterBalance.Inflow` | aquasmart_app.py:25 | inflow has one entry per rainfall day, each 80 × that day's rainfall |
| `WaterBalance.InflowNonNegative` | aquasmart_app.py:25 | inflow has one entry per rainfall day, each 80 × that day's rainfall, so non-negative rainfall gives non-negative inflow |
| `WaterBalance.CumSum` | aquasmart_app.py:26 | the running totals have the series' length, and entry i is the sum of the first i+1 elements |
| `WaterBalance.Levels` | aquasmart_app.py:26 | one level per day, every level ≥ 0, and level i = max(0, offset + Σ_{j≤i}(inflow_j − consumption_j)) |
| `WaterBalance.DeficitCarriedForward` | aquasmart_app.py:26 | once the running total is in deficit, the level reads 0 and the next level is max(0, deficit + that day's net), which is strictly below what flooring the previous level would give on a surplus day |
| `WaterBalance.LevelsMonotoneInOffset` | aquasmart_app.py:26 | with the series fixed, every level, the last one shown as the current level included, is non-decreasing in the starting volume |
| `WaterBalance.Trailing` | aquasmart_app.py:53-54 | the window is exactly the last min(7, n) entries of the series |
| `WaterBalance.Mean` | aquasmart_app.py:53-54 | the mean of a non-empty series, taken once per element, gives back the series' total |
| `WaterBalance.MeanWithinBounds` | aquasmart_app.py:53-54 | a trailing mean lies between any lower and upper bound of the days averaged |
| `WaterBalance.MeanMonotone` | aquasmart_app.py:53-55 | means of equally long series compare as their days do, strictly when every day is strictly ordered |
| `WaterBalance.TrailingMeansCompare` | aquasmart_app.py:53-55 | when one series dominates another day by day, its trailing-week mean dominates too, strictly when every day is strict |
| `WaterBalance.DaysRemaining` | aquasmart_app.py:55-56 | a non-negative balance gives exactly 999; a negative balance gives d with d × daily loss = level, so d ≥ 0 for a non-negative level |
| `WaterBalance.ClassifyAlert` | aquasmart_app.py:59-63 | the banner is the warning exactly when days remaining < 30, and OK otherwise |
| `WaterBalance.AlertMonotone` | aquasmart_app.py:59-63 | lowering days remaining never turns a warning into OK |
| `WaterBalance.EmptyAndLosingWarns` | aquasmart_app.py:56-60 | an empty reservoir with a negative balance gets 0 days remaining and the warning |
| `WaterBalance.Assess` | aquasmart_app.py:49-63 | the current level is the last of the series; a balance ≥ 0 gives 999 and OK; a negative balance gives current level / (mean consumption − mean inflow), ≥ 0; the warning is raised iff days remaining < 30 |
| `WaterBalance.Project` | aquasmart_app.py:25-63 | the levels are exactly the clipped series for inflow = 80 × rainfall and a 500,000 m³ starting volume, all ≥ 0; the current level is the last one and equals max(0, 500,000 + total net balance); the means are those of the trailing week of inflow and consumption; a balance ≥ 0 gives 999 and OK; a negative balance gives current level / (mean consumption − mean inflow), ≥ 0; the warning is raised iff days remaining < 30 |
| `WaterBalance.SurplusEveryDayIsOk` | aquasmart_app.py:53-63 | when inflow covers consumption on every day, days remaining is 999 and the banner is OK |
| `WaterBalance.DeficitEveryDayIsFinite` | aquasmart_app.py:53-56 | when consumption exceeds inflow on every day, the balance is negative and days remaining is the current level over the daily loss |
| `SabespLookup.FirstIndex` | aquasmart_app_SP.py:46 | the index found names an entry with the wanted name and no earlier entry has it; None exactly when no entry has that name |
| `SabespLookup.CantareiraData` | aquasmart_app_SP.py:46-47 | the result is the `data` field of the first entry named "Cantareira"; None (the `StopIteration`) exactly when there is no such entry |
| `SabespLookup.ShowPanel` | aquasmart_app_SP.py:44-54 | the error banner is shown exactly when no entry is named "Cantareira"; otherwise the three metrics are the readings of the first such entry |
| `SabespLookup.FirstMatchIgnoresRest` | aquasmart_app_SP.py:46 | entries after the first "Cantareira", including later entries with the same name, never affect the result |

## Left out

- HTTP requests to Open-Meteo and the SABESP API: network I/O. The forecast chart they feed is display only.
- Random generation of the rainfall and consumption series (`np.random.seed`, gamma and normal draws): the series are inputs to `Project`.
- The dates of the series: they only label chart axes.
- Streamlit and matplotlib rendering, number formatting (`int(...)`, `:,.0f`, `.1f`), page layout and CSS.
- IEEE floating-point rounding, NaN and infinities: quantities are exact reals, and the series must be non-empty.
- The JSON shape of the SABESP feed: entries are typed records, so a missing `name`, `data` or reading key (a `KeyError` caught by the same handler) is not modelled.
- Other `except Exception` fallbacks (the forecast error banner): UI fallback around I/O.
- Purity: every modelled operation is a function, so the feed and the series are unchanged by construction; no lemma states it.
