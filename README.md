# Sector engines of the K+S agent-based model

This project models the two industry sectors of the K+S macroeconomic model.
The consumer-goods sector (firms "Firm2") and the capital-goods sector
(firms "Firm1") are written as equations for the LSD simulation framework.
The model covers these parts of those equations:

- **`D2`**: the rationing of the sector's nominal consumption demand among its
  firms. Demand is split by market share. Every firm fills what its supply
  (effective output plus last period's inventories) allows. Firms that run
  out drop out. The shares of the firms that served in full are renormalised,
  and the residual demand is allocated again. This repeats until the residual
  is within 0.01 or no share is left. In the first round, a firm with supply
  that cannot fill its allotment records the excess as unsatisfied demand;
  every other firm records none.
- **`entry2exit` and `entry1exit`**: the entry/exit sequence. It marks the exit
  candidates: insolvent firms, and incumbents whose trailing statistic is
  unviable. It tracks the first candidate with the strictly largest positive
  statistic, or firm 0 when no candidate's statistic is positive. When every
  firm is a candidate, that firm is kept back: its debt is cleared
  and new equity is injected, so that its net wealth becomes the minimum net
  wealth plus the debt it had. The other candidates leave. As many entrants come in
  as firms left, the shares are rescaled twice, and the entry cost, the
  insolvent-exit rate and the exit rate are reported.
  - In the consumer-goods sector, a firm is an incumbent once its life cycle is
    positive. Its statistic is the mean of its last `n2` market shares, which
    is unviable below `f2min`.
  - In the capital-goods sector, a firm is an incumbent `n1` periods after its
    entry. Its statistic is its number of customers over the last `n1`
    periods, which is unviable when it is not positive.
- **`f2rescale` and `f1rescale`**: the share rescaler.
  - It leaves shares alone that already add up to one within 0.001.
  - Otherwise it divides every share by a positive total, or gives every firm
    1/N when the total is not positive.
- **`firm2maps`**: the rebuild of the consumer-goods sector's two firm
  indices, a list in population order and a map from identifier to firm.
- **`L1`, `L1rd` and `L2`**: the labour allocation between the sectors.
  - `L1rd` is the capital-goods sector's R&D labour, capped at a share of the
    labour supply.
  - `L1` is that sector's employment under a shortage factor with a floor.
  - `L2` is the consumer-goods sector's employment, capped at the labour left.

The model's modules:

- `Shares`: sums of shares and the rescaling rule.
- `Firms`: the firm record both sectors share.
- `Lifecycle`: the generic marking and resolution passes of the entry/exit
  sequence, written over a `Standing` that each sector computes in its own
  way.
- `Sectors`: the class `Sector<S>` holding a sector's firms and its entry
  cost and insolvent-exit rate, with the rescaler and the entry/exit
  sequence as methods.
- `Rationing`: the `D2` loop. It is specified round by round on values
  (`Visit`, `Sweep`, `Round`, `Run`, `Outcome`), and the method `Ration`
  runs it on arrays, as the source does, and is proved equal to the
  specification.
- `Labour`: the labour equations.
- `Consumption` and `Capital`: each sector's firm state, its standings, and
  its entry/exit equation. `Consumption` also holds the `D2` wrapper and the
  firm indices.

Rationing only serves firms that hold a share. A firm that holds all the
share but has no supply drops out. No share is left to renormalise, so the
loop stops with the demand unallocated, even when a firm without a share has
plenty to sell (`Rationing.StrandedDemand`).

## Model

| member | source | states |
|---|---|---|
| Shares.Rescaled | fun_KS_consumption.h:513-537 | `f2rescale`/`f1rescale` on the share vector; its meaning is carried by the lemmas RescaledLength, RescaledSumsToOne, RescaledProportional, RescaledDegenerate and RescaledIdempotent below |
| Shares.RescaledSumsToOne | fun_KS_consumption.h:513-537 | after rescaling, a non-empty sector's shares add up to one within the tolerance, and exactly to one when rescaling changed them |
| Shares.RescaledProportional | fun_KS_consumption.h:520-525 | with a positive total, every share is divided by the total and the firms' ranking by share is preserved |
| Shares.RescaledDegenerate | fun_KS_consumption.h:526-535 | with a total that is not positive, every firm gets the fair share 1/N, and N of them hold exactly one |
| Shares.RescaledIdempotent | fun_KS_consumption.h:513-537 | rescaling twice is rescaling once |
| Shares.SumFair | fun_KS_capital.h:332-341 | the fair shares of a non-empty sector add up to one |
| Firms.RescaledFirmsFacts | fun_KS_capital.h:319-343 | rescaling firms changes only their shares, to the rescaled share vector; the population size is kept; a non-empty result adds up to one within the tolerance; rescaling twice is rescaling once |
| Lifecycle.IsCandidate | fun_KS_consumption.h:125-132 | the exit-candidate test: insolvent, or an incumbent whose statistic is unviable; Lifecycle.Mark and Lifecycle.Selection use it, and the sectors' ExitRule lemmas state it in each sector's terms |
| Lifecycle.Recapitalised | fun_KS_consumption.h:161-169 | the kept-back firm's debt becomes zero and its net wealth becomes the minimum wealth plus its old debt; its equity grows by the same injection as its net wealth |
| Lifecycle.Mark | fun_KS_capital.h:68-93 | the marking pass yields the candidates' quit vector and the number of non-candidates, and its `k` is the first candidate with the strictly largest positive statistic, or firm 0 when there is none |
| Lifecycle.Resolve | fun_KS_consumption.h:147-173 | the resolution pass keeps the non-candidates and, when no firm is a non-candidate, the recapitalised best firm; it counts the exits and the insolvent ones among them, and adds up the injected equity |
| Lifecycle.BestInRange | fun_KS_consumption.h:135-139 | the best candidate is a firm of the sector, and it is a candidate when every firm is |
| Lifecycle.BestUnique | fun_KS_capital.h:84-88 | the best candidate is uniquely determined by the marks and statistics |
| Lifecycle.KeptSize | fun_KS_capital.h:97-122 | the firms kept and the exits make up the whole population, and no more firms fail than exit |
| Lifecycle.CandidatesLeave | fun_KS_consumption.h:150-158 | when some firm is not a candidate, exactly the candidates leave and no equity is injected |
| Lifecycle.AllButBestLeave | fun_KS_consumption.h:152-169 | when every firm is a candidate, all leave except the best, which is recapitalised; its injection is the equity injected |
| Lifecycle.Selection | fun_KS_consumption.h:119-173 | the two passes never empty the sector; exits are the candidates when some firm is not one, and all but the best (F-1) otherwise; equity is injected only in the second case |
| Lifecycle.CountTrueBounds | fun_KS_consumption.h:119-133 | the number of candidates is at most the population, and equals it exactly when every firm is a candidate |
| Sectors.Sector.Rescale | fun_KS_capital.h:313-343 | `f1rescale`/`f2rescale`: the firms' shares become the rescaled shares, nothing else changes, and the result is the sum of the new shares |
| Sectors.Sector.Exit | fun_KS_consumption.h:113-175 | the exit half leaves the rescaled kept firms, and returns the exit and failure counts and the injected equity, all determined by the marks and the best candidate |
| Sectors.Sector.EntryExit | fun_KS_capital.h:64-135 | the entry/exit sequence: the rescaled kept firms followed by one entrant per exit, rescaled again; the population size is restored; the entry cost is the injected equity; the insolvent-exit rate and the exit rate are fractions of the population |
| Rationing.Visit | fun_KS_consumption.h:49-79 | one firm's turn in a round, keeping every vector the population's length; Rationing.VisitFirst, Rationing.VisitAccounted and Rationing.VisitInPlace state what it does |
| Rationing.Sweep | fun_KS_consumption.h:45-80 | one pass over the firms in population order; Rationing.SweepSkipsZero and Rationing.SweepInPlace state what it does |
| Rationing.Round | fun_KS_consumption.h:45-89 | one round: a sweep that starts with no kept share, renormalised when a share is kept; Rationing.RoundStep, Rationing.RoundCount and Rationing.RoundInPlace state what it does |
| Rationing.Run | fun_KS_consumption.h:43-90 | the rounds repeated until the residual is within the tolerance or no share is kept, under a round bound; Rationing.RunExit, Rationing.RunResidual, Rationing.RunSettles, Rationing.RunKeepsUnfilled and Rationing.RunKeepsZero state what it does |
| Rationing.Outcome | fun_KS_consumption.h:41-90 | the rationing outcome with n+1 rounds as bound; Rationing.OutcomeAccounted, Rationing.SupplyBound, Rationing.MoneyConserved, Rationing.UnfilledFirstRound, Rationing.FuelSuffices, Rationing.OutcomeExit and Rationing.Ration state what it is |
| Rationing.RoundStep | fun_KS_consumption.h:82-86 | the share kept in a round is the total of the still-positive shares; when positive, the renormalised shares add up to exactly one and the termination measure drops |
| Rationing.RoundCount | fun_KS_consumption.h:47-80 | a round never adds a firm with a positive share, and when the round is not the first and keeps every share, its residual is zero |
| Rationing.RenormalisedWhole | fun_KS_consumption.h:82-84 | dividing by the kept share makes the positive shares add up to one and keeps every positive share positive |
| Rationing.RunResidual | fun_KS_consumption.h:43-90 | the residual never turns negative when it starts non-negative and the positive shares add up to at most one |
| Rationing.RunSettles | fun_KS_consumption.h:43-90 | once the fuel covers the termination measure, more fuel does not change the outcome |
| Rationing.RunExit | fun_KS_consumption.h:43-90 | with fuel covering the termination measure, the run ends with the residual within the tolerance or with no positive share left |
| Rationing.OutcomeExit | fun_KS_consumption.h:43-90 | rationing ends only by the loop's own rule: the residual is within 0.01, or no firm holds a positive share; the bound on the rounds never cuts it short |
| Rationing.FuelSuffices | fun_KS_consumption.h:43-90 | n+1 rounds always suffice: the outcome equals a run with any larger bound |
| Rationing.VisitFirst | fun_KS_consumption.h:66-76 | in the first round, a firm's unsatisfied demand becomes its allotment's excess over its supply, and a firm with a share but no supply loses its share; other firms are untouched |
| Rationing.SweepSkipsZero | fun_KS_consumption.h:49 | a firm without a share keeps a zero share and sells nothing in a round |
| Rationing.RunKeepsUnfilled | fun_KS_consumption.h:66-67 | rounds after the first never change the unsatisfied demand |
| Rationing.RunKeepsZero | fun_KS_consumption.h:72-76 | a firm whose share has dropped to zero keeps it and sells nothing more |
| Rationing.OutcomeAccounted | fun_KS_consumption.h:33-92 | the outcome's books balance: per-firm sales plus what is left equal the supply, sales are bounded by supply, value sold plus residual is the demand, and the total is the sum of the sales |
| Rationing.SupplyBound | fun_KS_consumption.h:33-92 | no firm sells a negative quantity or more than its starting supply; a firm without supply sells nothing; the result is the sum of the firms' sales |
| Rationing.UnsharedUnserved | fun_KS_consumption.h:49 | a firm whose entry share is not positive is never served |
| Rationing.MoneyConserved | fun_KS_consumption.h:53-71 | the value of the sales plus the residual is the demand; the residual is not negative when the demand is not and the positive entry shares add up to at most one |
| Rationing.NoDemand | fun_KS_consumption.h:36-43 | with demand within the tolerance nothing is sold, no demand goes unsatisfied and the result is zero |
| Rationing.UnfilledFirstRound | fun_KS_consumption.h:37-67 | the unsatisfied demand is the first round's shortfall when a round runs, and zero otherwise |
| Rationing.DryFirmDropsOut | fun_KS_consumption.h:75-76 | a firm with a share but no supply ends with a zero share, having sold nothing |
| Rationing.WorkedExample | fun_KS_consumption.h:41-90 | shares 0.5/0.3/0.2, supplies 100/50/10, unit prices and demand 90 sell 50, 30 and 10, and the third firm's unsatisfied demand is 8 |
| Rationing.StrandedDemand | fun_KS_consumption.h:75-86 | the whole demand can stay unallocated while an unshared firm has supply to spare |
| Rationing.VisitInPlace | fun_KS_consumption.h:49-79 | one firm's turn on the arrays and accumulators is the specified turn |
| Rationing.SweepInPlace | fun_KS_consumption.h:45-80 | one pass over the firms on the arrays is the specified sweep |
| Rationing.RenormaliseInPlace | fun_KS_consumption.h:82-84 | the share array becomes every share divided by the kept share |
| Rationing.RoundInPlace | fun_KS_consumption.h:45-89 | a round on the arrays returns the kept share and leaves the specified round, renormalised when a share is kept |
| Rationing.Ration | fun_KS_consumption.h:24-92 | the loop on arrays computes exactly the specified outcome: every firm's sales and unsatisfied demand, and the total sold; by Rationing.OutcomeExit that outcome meets the loop's stop rule |
| Labour.ResearchLabour | fun_KS_capital.h:199-204 | `L1rd` is the R&D labour demand capped at the maximum share of the labour supply: at most both, and equal to one of them |
| Labour.ResearchWithinSupply | fun_KS_capital.h:204 | with a maximum share of at most one, R&D employment never exceeds the labour supply |
| Labour.ShortageFactor | fun_KS_capital.h:29-41 | the labour-shortage factor; Labour.FactorBounds states its bounds |
| Labour.Employment1 | fun_KS_capital.h:18-43 | `L1`; Labour.NoShortage, Labour.Employment1Between and Labour.WithinSupply state what it is |
| Labour.FactorBounds | fun_KS_capital.h:29-41 | the shortage factor is at most one; it is one without a shortage; under a shortage it is at least one minus the maximum shortage and never negative |
| Labour.NoShortage | fun_KS_capital.h:29-43 | without a shortage, `L1` is the labour demand capped at the labour supply |
| Labour.Employment1Between | fun_KS_capital.h:25-43 | `L1` lies between the capped R&D labour and the capped labour demand, so it never exceeds the labour supply |
| Labour.Employment2 | fun_KS_consumption.h:322-328 | `L2` is the labour demand capped at the labour the capital-goods sector leaves: at most both, and equal to one of them |
| Labour.WithinSupply | fun_KS_consumption.h:326-328 | both sectors together never employ more than the labour supply, and `L2` is not negative for a demand that is not |
| Consumption.DemandFulfilled | fun_KS_consumption.h:18-92 | `D2` records the rationing outcome's sales and unsatisfied demand in every firm, changes nothing else, and returns the total sold |
| Consumption.Delivery | fun_KS_consumption.h:33-76 | each firm's recorded sales lie between zero and its supply, and are zero without a supply or a share; its unsatisfied demand is not negative; the rest of the firm is unchanged |
| Consumption.DeliveryTotals | fun_KS_consumption.h:53-92 | `D2`'s result is the sum of the firms' sales, and their value plus the unallocated residual is the demand |
| Consumption.Standing2 | fun_KS_consumption.h:121-130 | a consumer-goods firm's standing; Consumption.ExitRule, Consumption.Threshold, Consumption.WindowViability and Consumption.Standings2 state what it is |
| Consumption.Standings2 | fun_KS_consumption.h:121-129 | the averaging loops give every firm its standing: incumbency, the n2-period mean share, and whether the mean is below `f2min` |
| Consumption.MeanIsAverage | fun_KS_consumption.h:127-128 | the running sum of shares divided by n2 is the sum of the shares over n2 |
| Consumption.Threshold | fun_KS_consumption.h:130 | the mean share is below `f2min` exactly when the window's shares add up to less than `f2min` times n2 |
| Consumption.ExitRule | fun_KS_consumption.h:125-132 | a firm is a candidate exactly when it is insolvent, or it is an incumbent whose n2 shares add up to less than `f2min` times n2 |
| Consumption.WindowViability | fun_KS_consumption.h:127-130 | an incumbent whose share never fell below `f2min` over the window is viable, and one that stayed below throughout is not |
| Consumption.Entry2Exit | fun_KS_consumption.h:95-186 | `entry2exit` is the shared entry/exit sequence over the consumer-goods standings, followed by the firm indices rebuilt over the new population |
| Consumption.IdIndex | fun_KS_consumption.h:548-554 | the identifier map `firm2maps` builds; Consumption.IndexKeys, Consumption.IndexFindsFirst, Consumption.IndexSound and Consumption.FirmIndex.Rebuild state what it holds |
| Consumption.FirmIndex.Rebuild | fun_KS_consumption.h:540-560 | `firm2maps` clears both indices: the list becomes the firms in population order, the map the first firm for each identifier, and the result is the number of firms |
| Consumption.IndexKeys | fun_KS_consumption.h:548-554 | the map's keys are exactly the firms' identifiers |
| Consumption.IndexFindsFirst | fun_KS_consumption.h:553-554 | a firm whose identifier no earlier firm carries is what its identifier finds, since insertion never replaces a key |
| Consumption.IndexSound | fun_KS_consumption.h:553-554 | whatever an identifier finds is a firm of the population carrying that identifier |
| Capital.Standing1 | fun_KS_capital.h:70-81 | a capital-goods firm's standing; Capital.ExitRule, Capital.WindowViability and Capital.Standings1 state what it is |
| Capital.Standings1 | fun_KS_capital.h:70-79 | the counting loops give every firm its standing: incumbency at time T, the customers over the n1 periods, and whether they are not positive |
| Capital.CustomerBounds | fun_KS_capital.h:76-77 | a window with no customers in any period adds up to none or fewer; with none negative and some positive, to a positive number |
| Capital.ExitRule | fun_KS_capital.h:74-81 | a firm is a candidate exactly when it is insolvent, or it entered at least n1 periods ago and had no positive customer total; a solvent younger firm never is |
| Capital.WindowViability | fun_KS_capital.h:76-79 | an incumbent without customers in any period of the window is unviable; one that never had negative customers and had some is viable |
| Capital.Entry1Exit | fun_KS_capital.h:46-135 | `entry1exit` is the shared entry/exit sequence over the capital-goods standings |

## Left out

- LSD framework plumbing is not modelled: lazy, memoised evaluation (`V`, `VS`, `VLS`), `UPDATE`, the `CYCLE` mechanics, `EXEC_EXTS` and `INIT_TSEARCHT`. A sector is a sequence of firm records, and the equations run once when called. `f1rescale` and `f2rescale` are support functions that run again on every call: `entry1exit` and `entry2exit` call each one twice, and the model applies it twice (`Sectors.EntryExitOutcome`).
- `exit_firm`, `entry_firm1` and `entry_firm2` are not part of this model. Exit removes the firm from the sequence. Entry appends firms from an entrant policy passed as a function. The liquidation values that `exit_firm` credits to `cExit1`/`cExit2` are not modelled, and `cExit1`/`cExit2` are not modelled at all.
- The minimum wealth of a kept-back firm (`NW10u`, `NW20u`), the time `T`, the labour supply and the sector demands are inputs. They are computed by other equations.
- Aggregates that only call framework sums or averages (`SUM( "_D2d" )` before `entry2exit`, and the like) are left out.
- Floating point is not modelled: quantities are reals. LSD's `ROUND(v, 1, 0.001) == 1.0` is read as "v within 0.001 of one" (`Shares.NearOne`), because `ROUND` is not part of this model.
- `exit1fail`/`exit2fail` are stored in the sector object rather than in the sector-statistics object the source writes them to.
- The firm indices of `firm2maps` hold copies of the firm records, not pointers. Aliasing between an index entry and the live firm is not modelled.
- The window lengths `n1` and `n2` are natural numbers. The source reads them as doubles, and a fractional length would run the loop to the next integer.
- Lagged values are sequences that every firm is required to hold for the whole window (`Windowed`). LSD's behaviour when a lag is missing is not modelled.
- Consumption.DemandFulfilled: requires positive prices. The source divides by every firm's price while it has a positive share and supply, and its behaviour on a zero price is a floating-point infinity that is not modelled.
- Sectors.Sector.EntryExit: requires at least one firm. The source divides by the population size for both rates.
- Sectors.Sector.EntryExit: the entry cost `cEntry` here is the recapitalisation injection only. `entry_firm1` and `entry_firm2` are not part of this model, and any entrant equity they add to `cEntry1`/`cEntry2` is not modelled.
- Rationing.Ration: when the loop breaks because no share is kept, the model's residual is that round's unallocated demand (`v[2]`). The source leaves `v[1]` at the round's starting demand. Neither is part of the equation's result.
- Labour.FactorBounds: the bound "factor at most one" is stated for a maximum shortage that is not negative. A negative `L1shortMax` would raise the floor above one.
- Labour.Employment1Between: requires a maximum shortage that is not negative. With a negative `L1shortMax` the factor's floor exceeds one, and `L1` can then exceed the labour supply in the source too.
- Labour.WithinSupply: requires a maximum shortage that is not negative, for the same reason: with a negative `L1shortMax` the source's `L1` can exceed the labour supply.
